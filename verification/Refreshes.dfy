/** Background refreshes of the memory cache: a refresh marks its key, runs, and removes the mark;
    clearing removes marks as well, whether or not their refresh is still running. */
module Refreshes {
  import opened MemoryCache

  /** `running` are the refresh goroutines that have not finished, each with its key. */
  datatype State = State(refreshing: set<Key>, running: map<nat, Key>)

  const INITIAL := State({}, map[])

  datatype Step = Start(key: Key, id: nat) | Finish(id: nat) | ClearKey(key: Key) | ClearAll

  /** A refresh of a marked key is not started. */
  predicate Enabled(s: State, step: Step) {
    match step
    case Start(key, id) => key !in s.refreshing && id !in s.running
    case Finish(id) => id in s.running
    case _ => true
  }

  function Apply(s: State, step: Step): State
    requires Enabled(s, step)
  {
    match step
    case Start(key, id) => State(s.refreshing + {key}, s.running[id := key])
    case Finish(id) => State(s.refreshing - {s.running[id]}, s.running - {id})
    case ClearKey(key) => s.(refreshing := s.refreshing - {key})
    case ClearAll => s.(refreshing := {})
  }

  ghost predicate Possible(s: State, run: seq<Step>)
    decreases |run|
  {
    run == [] || (Enabled(s, run[0]) && Possible(Apply(s, run[0]), run[1..]))
  }

  ghost function Final(s: State, run: seq<Step>): State
    requires Possible(s, run)
    decreases |run|
  {
    if run == [] then s else Final(Apply(s, run[0]), run[1..])
  }

  // ---- One refresh at a time ----

  predicate Runs(s: State, key: Key, id: nat) {
    id in s.running && s.running[id] == key
  }

  /** At most one refresh of the key runs, and another is started only when none does. */
  ghost predicate OneAtATime(s: State, key: Key) {
    && (forall a, b | Runs(s, key, a) && Runs(s, key, b) :: a == b)
    && forall a | Runs(s, key, a) :: key in s.refreshing
  }

  /** In every state the run goes through. */
  ghost predicate AlwaysOneAtATime(s: State, run: seq<Step>, key: Key)
    requires Possible(s, run)
    decreases |run|
  {
    OneAtATime(s, key) && (run == [] || AlwaysOneAtATime(Apply(s, run[0]), run[1..], key))
  }

  predicate Clears(step: Step, key: Key) {
    step == ClearKey(key) || step.ClearAll?
  }

  /** The key is never cleared while a refresh of it runs. */
  ghost predicate NeverClearedMeanwhile(s: State, run: seq<Step>, key: Key)
    requires Possible(s, run)
    decreases |run|
  {
    run == [] || ((Clears(run[0], key) ==> forall a :: !Runs(s, key, a))
                  && NeverClearedMeanwhile(Apply(s, run[0]), run[1..], key))
  }

  lemma KeepsOneAtATime(s: State, step: Step, key: Key)
    requires OneAtATime(s, key) && Enabled(s, step)
    ensures OneAtATime(Apply(s, step), key) <==> (Clears(step, key) ==> forall a :: !Runs(s, key, a))
  {
    var s' := Apply(s, step);
    if step.Start? {
      assert forall a | Runs(s', key, a) :: (a == step.id && step.key == key) || Runs(s, key, a);
    } else if step.Finish? {
      forall a | Runs(s', key, a) ensures Runs(s, key, a) && key in s'.refreshing {
        assert Runs(s, key, a) && a != step.id;
        assert s.running[step.id] == key ==> Runs(s, key, step.id);
      }
    } else {
      forall a ensures Runs(s', key, a) <==> Runs(s, key, a) {}
    }
  }

  lemma {:induction false} OneAtATimeFrom(s: State, run: seq<Step>, key: Key)
    requires OneAtATime(s, key) && Possible(s, run)
    ensures AlwaysOneAtATime(s, run, key) <==> NeverClearedMeanwhile(s, run, key)
    decreases |run|
  {
    if run != [] {
      KeepsOneAtATime(s, run[0], key);
      if OneAtATime(Apply(s, run[0]), key) {
        OneAtATimeFrom(Apply(s, run[0]), run[1..], key);
      }
    }
  }

  /** Over a whole run refreshes of a key run one at a time, and none is startable while one runs,
      exactly if the key is never cleared while one runs. */
  lemma OneAtATimeExactly(run: seq<Step>, key: Key)
    requires Possible(INITIAL, run)
    ensures AlwaysOneAtATime(INITIAL, run, key) <==> NeverClearedMeanwhile(INITIAL, run, key)
  {
    OneAtATimeFrom(INITIAL, run, key);
  }

  /** That none is startable while one runs is no more than that two never run: where the mark of a
      running refresh is gone, a second one can be started at once. */
  lemma StartableMeansTwo(s: State, key: Key, a: nat, id: nat)
    requires Runs(s, key, a) && id !in s.running
    ensures Enabled(s, Start(key, id)) <==> key !in s.refreshing
    ensures key !in s.refreshing ==>
              var s' := Apply(s, Start(key, id)); Runs(s', key, a) && Runs(s', key, id) && a != id
  {
  }

  /** Cleared while a refresh runs, the key is refreshed twice at once; and then the first to finish
      removes the mark of the other. */
  lemma TwoAtOnce(key: Key)
    ensures var run := [Start(key, 0), ClearKey(key), Start(key, 1)];
            && Possible(INITIAL, run) && Possible(INITIAL, run + [Finish(0)])
            && Runs(Final(INITIAL, run), key, 0) && Runs(Final(INITIAL, run), key, 1)
            && Runs(Final(INITIAL, run + [Finish(0)]), key, 1) && key !in Final(INITIAL, run + [Finish(0)]).refreshing
  {
    var first, second, third, last := Start(key, 0), ClearKey(key), Start(key, 1), Finish(0);
    var one := Apply(INITIAL, first);
    var two := Apply(one, second);
    var three := Apply(two, third);
    FirstStep(three, last, []);
    forall rest | rest == [] || rest == [last]
      ensures Possible(INITIAL, [first, second, third] + rest)
      ensures Final(INITIAL, [first, second, third] + rest) == Final(three, rest)
    {
      FirstStep(two, third, rest);
      FirstStep(one, second, [third] + rest);
      FirstStep(INITIAL, first, [second] + ([third] + rest));
      assert [first] + ([second] + ([third] + rest)) == [first, second, third] + rest;
    }
    assert [first, second, third] + [] == [first, second, third] && [last] + [] == [last];
  }

  lemma FirstStep(s: State, step: Step, rest: seq<Step>)
    requires Enabled(s, step) && Possible(Apply(s, step), rest)
    ensures Possible(s, [step] + rest) && Final(s, [step] + rest) == Final(Apply(s, step), rest)
  {
    assert ([step] + rest)[1..] == rest;
  }
}
