/** Saga definitions as data: an ordered list of steps, each with an optional
    forward participant action, an optional reply handler and an optional
    compensation, and the compensations that run when a step fails. */
module Sagas {
  import opened Common

  /** The command channels the sagas send to. */
  datatype Channel =
    | OrderServiceChannel
    | ConsumerServiceChannel
    | KitchenServiceChannel
    | AccountingServiceChannel

  /** One step of a saga definition, over the saga's actions `A` and reply handlers `H`. */
  datatype Step<A, H> = Step(participant: Option<A>, replyHandler: Option<H>, compensation: Option<A>)

  /** A step's compensation as a list of zero or one actions. */
  function CompensationOf<A, H>(step: Step<A, H>): seq<A> {
    if step.compensation.Some? then [step.compensation.value] else []
  }

  /** The compensations of `done`, in the order the steps completed. */
  function ForwardCompensations<A, H>(done: seq<Step<A, H>>): seq<A> {
    if done == [] then [] else CompensationOf(done[0]) + ForwardCompensations(done[1..])
  }

  /** The compensations of the completed steps `done`, last step first,
      skipping steps that have none. */
  function Unwind<A, H>(done: seq<Step<A, H>>): (us: seq<A>)
    ensures |us| <= |done|
    ensures done != [] && done[|done| - 1].compensation.Some? ==>
              |us| > 0 && us[0] == done[|done| - 1].compensation.value
  {
    if done == [] then []
    else
      var last := |done| - 1;
      var rest := Unwind(done[..last]);
      CompensationOf(done[last]) + rest
  }

  /** Completing one more step puts its compensation first. */
  lemma UnwindSnoc<A, H>(done: seq<Step<A, H>>, step: Step<A, H>)
    ensures Unwind(done + [step]) == CompensationOf(step) + Unwind(done)
  {
  }

  /** The compensations run when step `failed` reports failure: those of the
      steps before it, in reverse order. The failed step itself did not
      complete, so its own compensation is not run. */
  function CompensationsOnFailure<A, H>(steps: seq<Step<A, H>>, failed: nat): (us: seq<A>)
    requires failed < |steps|
    ensures us == Reverse(ForwardCompensations(steps[..failed]))
    ensures failed == 0 ==> us == []
  {
    UnwindIsReversedForward(steps[..failed]);
    Unwind(steps[..failed])
  }

  /** The indices of the completed steps whose compensations run, in the
      order they run: strictly decreasing, and every step with a compensation
      is among them. */
  function CompensatedSteps<A, H>(done: seq<Step<A, H>>): (idx: seq<nat>)
    ensures forall k :: 0 <= k < |idx| ==> idx[k] < |done| && done[idx[k]].compensation.Some?
    ensures forall k, l :: 0 <= k < l < |idx| ==> idx[k] > idx[l]
    ensures forall j :: 0 <= j < |done| && done[j].compensation.Some? ==> j in idx
  {
    if done == [] then []
    else
      var last := |done| - 1;
      var rest := CompensatedSteps(done[..last]);
      assert forall k :: 0 <= k < |rest| ==> done[rest[k]] == done[..last][rest[k]];
      (if done[last].compensation.Some? then [last] else []) + rest
  }

  /** `us[k]` is the compensation of step `idx[k]` of `done`, for every k. */
  ghost predicate CompensationsOfSteps<A, H>(done: seq<Step<A, H>>, us: seq<A>, idx: seq<nat>) {
    |us| == |idx| && forall k :: 0 <= k < |us| ==> idx[k] < |done| && done[idx[k]].compensation == Some(us[k])
  }

  lemma CompensationsOfStepsCons<A, H>(done: seq<Step<A, H>>, x: A, us: seq<A>, i: nat, idx: seq<nat>)
    requires CompensationsOfSteps(done, us, idx)
    requires i < |done| && done[i].compensation == Some(x)
    ensures CompensationsOfSteps(done, [x] + us, [i] + idx)
  {
  }

  lemma CompensationsOfStepsExtend<A, H>(done: seq<Step<A, H>>, n: nat, us: seq<A>, idx: seq<nat>)
    requires n <= |done| && CompensationsOfSteps(done[..n], us, idx)
    ensures CompensationsOfSteps(done, us, idx)
  {
  }

  /** The k-th compensation run is that of the k-th step in `CompensatedSteps`. */
  lemma {:induction false} UnwindFollowsCompensatedSteps<A, H>(done: seq<Step<A, H>>)
    ensures CompensationsOfSteps(done, Unwind(done), CompensatedSteps(done))
  {
    if done != [] {
      var last := |done| - 1;
      UnwindFollowsCompensatedSteps(done[..last]);
      CompensationsOfStepsExtend(done, last, Unwind(done[..last]), CompensatedSteps(done[..last]));
      if done[last].compensation.Some? {
        CompensationsOfStepsCons(done, done[last].compensation.value, Unwind(done[..last]), last,
                                 CompensatedSteps(done[..last]));
      }
    }
  }

  function Reverse<T>(s: seq<T>): (r: seq<T>)
    ensures |r| == |s|
  {
    if s == [] then [] else Reverse(s[1..]) + [s[0]]
  }

  lemma {:induction false} ReverseConcat<T>(a: seq<T>, b: seq<T>)
    ensures Reverse(a + b) == Reverse(b) + Reverse(a)
  {
    if a == [] {
      assert a + b == b;
    } else {
      assert (a + b)[0] == a[0] && (a + b)[1..] == a[1..] + b;
      ReverseConcat(a[1..], b);
    }
  }

  lemma {:induction false} ForwardCompensationsSnoc<A, H>(done: seq<Step<A, H>>, step: Step<A, H>)
    ensures ForwardCompensations(done + [step]) == ForwardCompensations(done) + CompensationOf(step)
  {
    if done == [] {
      assert done + [step] == [step];
      assert [step][1..] == [];
    } else {
      assert (done + [step])[0] == done[0] && (done + [step])[1..] == done[1..] + [step];
      ForwardCompensationsSnoc(done[1..], step);
    }
  }

  /** Compensations run in exactly the reverse of the order in which the
      steps that have them completed. */
  lemma {:induction false} UnwindIsReversedForward<A, H>(done: seq<Step<A, H>>)
    ensures Unwind(done) == Reverse(ForwardCompensations(done))
  {
    if done != [] {
      var last := |done| - 1;
      assert done == done[..last] + [done[last]];
      ForwardCompensationsSnoc(done[..last], done[last]);
      UnwindIsReversedForward(done[..last]);
      var c := CompensationOf(done[last]);
      ReverseConcat(ForwardCompensations(done[..last]), c);
      assert Reverse(c) == c by {
        if c != [] { assert c[1..] == []; }
      }
    }
  }
}
