/**
 * The handler over a run of calls. The Flutter engine delivers calls one at a
 * time and each runs to completion, so a run is a sequence of steps, each a
 * call together with the platform as it stood when the call arrived. `Run`
 * drives MainActivity.OnMethodCall over such a run; `Replies` and
 * `Navigations` say what it leaves in the result object and in the activity's
 * log, and the lemmas below are therefore about those logs.
 */
module Sessions {
  import opened Android
  import opened Flutter
  import opened Meditation

  datatype Step = Step(platform: Platform, call: MethodCall)

  /** The answers delivered over a run, one per call, in order. */
  function Replies(steps: seq<Step>): seq<Reply>
  {
    if steps == [] then [] else [Respond(steps[0].platform, steps[0].call)] + Replies(steps[1..])
  }

  /** The activities started over a run, in order. */
  function Navigations(packageName: string, steps: seq<Step>): seq<NavigationRequest>
  {
    if steps == [] then [] else Dispatches(packageName, steps[0].call) + Navigations(packageName, steps[1..])
  }

  /** The channel ids of the openChannelSettings calls of a run that carried one. */
  function OpenedChannelIds(steps: seq<Step>): seq<string>
  {
    if steps == [] then []
    else
      var call := steps[0].call;
      var rest := OpenedChannelIds(steps[1..]);
      if call.name == OPEN_CHANNEL_SETTINGS && Argument(call, CHANNEL_ID).Some? then
        [Argument(call, CHANNEL_ID).value] + rest
      else
        rest
  }

  lemma {:induction false} RepliesAppend(s: seq<Step>, t: seq<Step>)
    ensures Replies(s + t) == Replies(s) + Replies(t)
  {
    if s != [] {
      assert (s + t)[1..] == s[1..] + t;
      RepliesAppend(s[1..], t);
    } else {
      assert s + t == t;
    }
  }

  lemma {:induction false} NavigationsAppend(packageName: string, s: seq<Step>, t: seq<Step>)
    ensures Navigations(packageName, s + t) == Navigations(packageName, s) + Navigations(packageName, t)
  {
    if s != [] {
      assert (s + t)[1..] == s[1..] + t;
      NavigationsAppend(packageName, s[1..], t);
    } else {
      assert s + t == t;
    }
  }

  /** Handling one more step extends both logs by that step's answer and dispatches. */
  lemma PrefixStep(packageName: string, steps: seq<Step>, i: nat)
    requires i < |steps|
    ensures Replies(steps[..i + 1]) == Replies(steps[..i]) + [Respond(steps[i].platform, steps[i].call)]
    ensures Navigations(packageName, steps[..i + 1]) == Navigations(packageName, steps[..i]) + Dispatches(packageName, steps[i].call)
  {
    assert steps[..i + 1] == steps[..i] + [steps[i]];
    assert [steps[i]][1..] == [];
    RepliesAppend(steps[..i], [steps[i]]);
    NavigationsAppend(packageName, steps[..i], [steps[i]]);
  }

  /**
   * The engine delivering the calls of a run to the handler, one after the
   * other: the result object receives Replies(steps) and the activity's log
   * grows by Navigations(packageName, steps).
   */
  method Run(activity: MainActivity, steps: seq<Step>, result: MethodResult)
    requires activity.Valid()
    modifies activity, result
    ensures activity.Valid()
    ensures result.replies == old(result.replies) + Replies(steps)
    ensures activity.startedActivities == old(activity.startedActivities) + Navigations(activity.packageName, steps)
  {
    ghost var replies0 := result.replies;
    ghost var started0 := activity.startedActivities;
    var i := 0;
    while i < |steps|
      invariant 0 <= i <= |steps|
      invariant activity.Valid()
      invariant result.replies == replies0 + Replies(steps[..i])
      invariant activity.startedActivities == started0 + Navigations(activity.packageName, steps[..i])
    {
      PrefixStep(activity.packageName, steps, i);
      activity.OnMethodCall(steps[i].platform, steps[i].call, result);
      i := i + 1;
    }
    assert steps[..i] == steps;
  }

  /** Request/response pairing is one to one: the i-th answer is the answer to the i-th call. */
  lemma {:induction false} RepliesPairWithCalls(steps: seq<Step>)
    ensures |Replies(steps)| == |steps|
    ensures forall i :: 0 <= i < |steps| ==> Replies(steps)[i] == Respond(steps[i].platform, steps[i].call)
  {
    if steps != [] {
      RepliesPairWithCalls(steps[1..]);
      forall i | 0 < i < |steps|
        ensures Replies(steps)[i] == Respond(steps[i].platform, steps[i].call)
      {
        assert steps[1..][i - 1] == steps[i];
      }
    }
  }

  /**
   * Over any run, the activities started are exactly one channel-settings
   * screen per openChannelSettings call that carried an id, in call order,
   * each for the app's own package and that id.
   */
  lemma {:induction false} NavigationsFollowOpenedChannels(packageName: string, steps: seq<Step>)
    ensures |Navigations(packageName, steps)| == |OpenedChannelIds(steps)|
    ensures forall i :: 0 <= i < |OpenedChannelIds(steps)| ==>
      Navigations(packageName, steps)[i] == ChannelSettingsRequest(packageName, OpenedChannelIds(steps)[i])
  {
    if steps != [] {
      NavigationsFollowOpenedChannels(packageName, steps[1..]);
    }
  }

  /** A run without openChannelSettings calls starts no activity, whatever else it asks. */
  lemma {:induction false} NoNavigationWithoutOpen(packageName: string, steps: seq<Step>)
    requires forall i :: 0 <= i < |steps| ==> steps[i].call.name != OPEN_CHANNEL_SETTINGS
    ensures Navigations(packageName, steps) == []
  {
    if steps != [] {
      assert steps[0].call.name != OPEN_CHANNEL_SETTINGS;
      NoNavigationWithoutOpen(packageName, steps[1..]);
    }
  }

  /**
   * Asking isChannelEnabled twice in a row on an unchanged platform: by Run,
   * the result object receives the same answer twice and the activity's log
   * does not change.
   */
  lemma RepeatedQueryAgrees(packageName: string, p: Platform, call: MethodCall)
    requires call.name == IS_CHANNEL_ENABLED
    ensures Replies([Step(p, call), Step(p, call)]) == [Respond(p, call), Respond(p, call)]
    ensures Navigations(packageName, [Step(p, call), Step(p, call)]) == []
  {
    var run := [Step(p, call), Step(p, call)];
    assert run[1..] == [Step(p, call)];
    assert run[1..][1..] == [];
    assert Replies(run[1..]) == [Respond(p, call)];
    assert Navigations(packageName, run[1..]) == Dispatches(packageName, call);
  }
}
