/** The negotiation engine of LPermission: the fluent builder, the two ask
    paths, the result classification and the handler dispatch. Each
    operation returns the effects it emits, in order; the three entry points
    (the two ask paths and the result path) also return the exception, if
    any, that escapes to their caller. */
module Negotiation {
  import opened PermissionTypes
  import opened PermissionUtil

  /** The owners whose platform `requestPermissions` the engine can call:
      an Activity or a support-library Fragment. */
  predicate CanAskHost(o: Owner)
  {
    o.Activity? || o.SupportFragment?
  }

  // ---------------------------------------------------------------------
  // Handler dispatch (callAnnotation)
  // ---------------------------------------------------------------------

  /** The invocations made while running `hs` on `target` in order: the first
      handler that fails is invoked and ends the run (the catch clauses sit
      outside the loop). */
  function Invoked(target: Owner, hs: seq<Handler>): (fx: seq<Event>)
    ensures |fx| <= |hs|
    ensures forall e :: e in fx ==> e.Invoke? && e.target == target
  {
    if |hs| == 0 then []
    else [Invoke(target, hs[0].name)] + (if hs[0].fails then [] else Invoked(target, hs[1..]))
  }

  /** Everything `callAnnotation(target, code, kind)` emits. */
  function Dispatched(env: Env, target: Owner, code: int, kind: Annotation): (fx: seq<Event>)
    ensures |fx| >= 1 && fx[0] == Dispatch(kind, code, target)
    ensures |fx| <= 1 + |Lookup(env.declared(target), kind, code)|
    ensures forall e :: e in fx[1..] ==> e.Invoke? && e.target == target
  {
    [Dispatch(kind, code, target)] + Invoked(target, Lookup(env.declared(target), kind, code))
  }

  lemma {:induction false} InvokedIsPrefixRun(target: Owner, hs: seq<Handler>)
    ensures |Invoked(target, hs)| <= |hs|
    ensures hs != [] ==> |Invoked(target, hs)| > 0
    ensures forall k :: 0 <= k < |Invoked(target, hs)| ==> Invoked(target, hs)[k] == Invoke(target, hs[k].name)
    ensures forall k :: 0 <= k < |Invoked(target, hs)| - 1 ==> !hs[k].fails
    ensures 0 < |Invoked(target, hs)| < |hs| ==> hs[|Invoked(target, hs)| - 1].fails
    ensures (forall k :: 0 <= k < |hs| ==> !hs[k].fails) ==> |Invoked(target, hs)| == |hs|
    decreases |hs|
  {
    if hs != [] {
      InvokedIsPrefixRun(target, hs[1..]);
      var rest := Invoked(target, hs[1..]);
      if !hs[0].fails {
        assert Invoked(target, hs) == [Invoke(target, hs[0].name)] + rest;
        forall k | 0 <= k < |hs[1..]| ensures !hs[1..][k].fails ==> !hs[k + 1].fails {
        }
      }
    }
  }

  /** One step of the invocation run over the suffix from `i`. */
  lemma InvokedStep(target: Owner, hs: seq<Handler>, i: nat)
    requires i < |hs|
    ensures Invoked(target, hs[i..])
         == [Invoke(target, hs[i].name)] + (if hs[i].fails then [] else Invoked(target, hs[i + 1..]))
  {
  }

  /** The loop of callAnnotation: invoke each handler in order; a failure is
      caught outside the loop, so it ends the run. */
  method InvokeAll(target: Owner, hs: seq<Handler>) returns (fx: seq<Event>)
    ensures fx == Invoked(target, hs)
  {
    fx := [];
    var i := 0;
    while i < |hs|
      invariant 0 <= i <= |hs|
      invariant fx + Invoked(target, hs[i..]) == Invoked(target, hs)
    {
      InvokedStep(target, hs, i);
      var call := Invoke(target, hs[i].name);
      assert fx + Invoked(target, hs[i..]) == (fx + [call]) + (if hs[i].fails then [] else Invoked(target, hs[i + 1..]));
      fx := fx + [call];
      if hs[i].fails {
        return;
      }
      i := i + 1;
    }
  }

  method CallAnnotation(env: Env, target: Owner, code: int, kind: Annotation) returns (fx: seq<Event>)
    ensures fx == Dispatched(env, target, code, kind)
  {
    var hs := GetMethodByRequestCode(env.declared(target), kind, code);
    var run := InvokeAll(target, hs);
    fx := [Dispatch(kind, code, target)] + run;
  }

  // ---------------------------------------------------------------------
  // Rationale scans
  // ---------------------------------------------------------------------

  /** Some permission of `perms` still shows a rationale. */
  predicate AnyRationale(perms: seq<Perm>, rationale: Perm -> bool)
  {
    exists i :: 0 <= i < |perms| && rationale(perms[i])
  }

  /** shouldShowRequestPermissionRationale(activity, code, perms): the first
      permission with a rationale dispatches RATIONALE to `activity` and
      answers true; none answers false with no effect. */
  method ShouldShowRequestPermissionRationale(env: Env, activity: Owner, code: int, perms: seq<Perm>)
    returns (show: bool, fx: seq<Event>)
    ensures show == AnyRationale(perms, env.rationale)
    ensures fx == if show then Dispatched(env, activity, code, Rationale) else []
  {
    var i := 0;
    while i < |perms|
      invariant 0 <= i <= |perms|
      invariant forall j :: 0 <= j < i ==> !env.rationale(perms[j])
    {
      if env.rationale(perms[i]) {
        fx := CallAnnotation(env, activity, code, Rationale);
        return true, fx;
      }
      i := i + 1;
    }
    return false, [];
  }

  /** shouldShowNeverAskAgainTip(activity, code, perms): true with no effect as
      soon as one permission still shows a rationale; otherwise dispatches
      NEVER_ASK_AGAIN to `activity` and answers false. */
  method ShouldShowNeverAskAgainTip(env: Env, activity: Owner, code: int, perms: seq<Perm>)
    returns (still: bool, fx: seq<Event>)
    ensures still == AnyRationale(perms, env.rationale)
    ensures fx == if still then [] else Dispatched(env, activity, code, NeverAskAgain)
  {
    var i := 0;
    while i < |perms|
      invariant 0 <= i <= |perms|
      invariant forall j :: 0 <= j < i ==> !env.rationale(perms[j])
    {
      if env.rationale(perms[i]) {
        return true, [];
      }
      i := i + 1;
    }
    fx := CallAnnotation(env, activity, code, NeverAskAgain);
    return false, fx;
  }

  // ---------------------------------------------------------------------
  // The engine, as functions of its inputs
  // ---------------------------------------------------------------------

  /** requestPermissions: the direct ask path. */
  function DirectAsk(env: Env, owner: Owner, code: int, perms: Option<seq<Perm>>): (r: Outcome)
    ensures r.thrown.Some? <==> r.effects == []
    ensures IsLowerMarshmallow(env.sdkInt) ==> r.thrown.None? && r.effects[0] == Dispatch(Granted, code, owner)
    ensures r.thrown == Some(IllegalArgument) ==> !CanAskHost(owner)
    ensures r.thrown.None? && r.effects[0].AskHost? ==> CanAskHost(owner) && perms.Some? && r.effects == [AskHost(owner, perms.value, code)]
    ensures r.thrown.None? && r.effects[0].Dispatch? ==> r.effects[0] == Dispatch(Granted, code, owner)
  {
    if IsLowerMarshmallow(env.sdkInt) then Outcome(Dispatched(env, owner, code, Granted), None)
    else
      match DeniedOrFault(GetActivity(owner), perms, env.granted)
      case Throws(e) => Outcome([], Some(e))
      case Ok(denied) =>
        if |denied| == 0 then Outcome(Dispatched(env, owner, code, Granted), None)
        else if CanAskHost(owner) then Outcome([AskHost(owner, perms.value, code)], None)
        else Outcome([], Some(IllegalArgument))
  }

  /** applyPermissions: the ask path that first scans for a rationale. */
  function RationaleAsk(env: Env, owner: Owner, code: int, perms: Option<seq<Perm>>): (r: Outcome)
    ensures r.thrown.Some? <==> r.effects == []
    ensures IsLowerMarshmallow(env.sdkInt) ==> r.thrown.None? && r.effects[0] == Dispatch(Granted, code, owner)
    ensures r.thrown == Some(IllegalArgument) ==> !CanAskHost(owner)
    ensures r.thrown.None? && r.effects[0].AskHost? ==>
      CanAskHost(owner) && perms.Some? && !AnyRationale(perms.value, env.rationale) && r.effects == [AskHost(owner, perms.value, code)]
    ensures r.thrown.None? && r.effects[0].Dispatch? ==>
      r.effects[0] == Dispatch(Granted, code, owner)
      || (CanAskHost(owner) && r.effects[0] == Dispatch(Rationale, code, GetActivity(owner).value))
  {
    if IsLowerMarshmallow(env.sdkInt) then Outcome(Dispatched(env, owner, code, Granted), None)
    else
      match DeniedOrFault(GetActivity(owner), perms, env.granted)
      case Throws(e) => Outcome([], Some(e))
      case Ok(denied) =>
        if |denied| == 0 then Outcome(Dispatched(env, owner, code, Granted), None)
        else if !CanAskHost(owner) then Outcome([], Some(IllegalArgument))
        else if AnyRationale(perms.value, env.rationale) then
          Outcome(Dispatched(env, GetActivity(owner).value, code, Rationale), None)
        else Outcome([AskHost(owner, perms.value, code)], None)
  }

  /** onPermissionResult: classify the host's grant vector. */
  function ResultOf(env: Env, owner: Owner, code: int, perms: seq<Perm>, grants: seq<int>): (r: Outcome)
    ensures r.thrown.Some? <==> !VerifiedGrants(grants) && !CanAskHost(owner)
    ensures r.thrown.Some? <==> r.effects == []
    ensures r.thrown.Some? ==> r.thrown == Some(IllegalArgument)
    ensures r.thrown.None? ==> r.effects[0].Dispatch? && r.effects[0].kind != Rationale
    ensures r.thrown.None? ==> (r.effects[0].kind == Granted <==> VerifiedGrants(grants))
  {
    if VerifiedGrants(grants) then Outcome(Dispatched(env, owner, code, Granted), None)
    else if !CanAskHost(owner) then Outcome([], Some(IllegalArgument))
    else if AnyRationale(perms, env.rationale) then Outcome(Dispatched(env, owner, code, Denied), None)
    else Outcome(Dispatched(env, GetActivity(owner).value, code, NeverAskAgain), None)
  }

  // ---------------------------------------------------------------------
  // The engine, as the program runs it
  // ---------------------------------------------------------------------

  method RequestPermissions(env: Env, owner: Owner, code: int, perms: Option<seq<Perm>>)
    returns (out: Outcome)
    ensures out == DirectAsk(env, owner, code, perms)
  {
    if IsLowerMarshmallow(env.sdkInt) {
      var fx := CallAnnotation(env, owner, code, Granted);
      return Outcome(fx, None);
    }
    var denied := GetDeniedPermissions(GetActivity(owner), perms, env.granted);
    if denied.Throws? {
      return Outcome([], Some(denied.failure));
    }
    if |denied.value| > 0 {
      if owner.Activity? || owner.SupportFragment? {
        return Outcome([AskHost(owner, perms.value, code)], None);
      } else {
        return Outcome([], Some(IllegalArgument));
      }
    } else {
      var fx := CallAnnotation(env, owner, code, Granted);
      return Outcome(fx, None);
    }
  }

  method ApplyPermissions(env: Env, owner: Owner, code: int, perms: Option<seq<Perm>>)
    returns (out: Outcome)
    ensures out == RationaleAsk(env, owner, code, perms)
  {
    if IsLowerMarshmallow(env.sdkInt) {
      var fx := CallAnnotation(env, owner, code, Granted);
      return Outcome(fx, None);
    }
    var denied := GetDeniedPermissions(GetActivity(owner), perms, env.granted);
    if denied.Throws? {
      return Outcome([], Some(denied.failure));
    }
    if |denied.value| > 0 {
      if owner.Activity? || owner.SupportFragment? {
        // a support Fragment scans (and dispatches RATIONALE) on its activity
        var show, fx := ShouldShowRequestPermissionRationale(env, GetActivity(owner).value, code, perms.value);
        if !show {
          return Outcome([AskHost(owner, perms.value, code)], None);
        }
        return Outcome(fx, None);
      } else {
        return Outcome([], Some(IllegalArgument));
      }
    } else {
      var fx := CallAnnotation(env, owner, code, Granted);
      return Outcome(fx, None);
    }
  }

  method OnPermissionResult(env: Env, owner: Owner, code: int, perms: seq<Perm>, grants: seq<int>)
    returns (out: Outcome)
    ensures out == ResultOf(env, owner, code, perms, grants)
  {
    var allGranted := VerifyPermission(grants);
    if allGranted {
      var fx := CallAnnotation(env, owner, code, Granted);
      return Outcome(fx, None);
    }
    if owner.Activity? || owner.SupportFragment? {
      var still, fx := ShouldShowNeverAskAgainTip(env, GetActivity(owner).value, code, perms);
      if still {
        fx := CallAnnotation(env, owner, code, Denied);
      }
      return Outcome(fx, None);
    } else {
      return Outcome([], Some(IllegalArgument));
    }
  }

  // ---------------------------------------------------------------------
  // The builder
  // ---------------------------------------------------------------------

  /** A request under construction: the owner it was made `with`, and the
      request code, permission array and rationale flag the setters assign. */
  class LPermission {
    const owner: Owner
    var requestCode: int
    var permissions: Option<seq<Perm>>
    var isCheck: bool

    constructor With(o: Owner)
      ensures owner == o
      ensures requestCode == 0 && permissions == None && !isCheck
    {
      owner := o;
      requestCode := 0;
      permissions := None;
      isCheck := false;
    }

    method RequestCode(code: int) returns (self: LPermission)
      modifies this
      ensures self == this
      ensures requestCode == code
      ensures permissions == old(permissions) && isCheck == old(isCheck)
    {
      requestCode := code;
      return this;
    }

    method Permission(perms: seq<Perm>) returns (self: LPermission)
      modifies this
      ensures self == this
      ensures permissions == Some(perms)
      ensures requestCode == old(requestCode) && isCheck == old(isCheck)
    {
      permissions := Some(perms);
      return this;
    }

    method ShowRationale(flag: bool) returns (self: LPermission)
      modifies this
      ensures self == this
      ensures isCheck == flag
      ensures requestCode == old(requestCode) && permissions == old(permissions)
    {
      isCheck := flag;
      return this;
    }

    /** request(): the rationale-checking path when the flag is set, the
        direct path otherwise. */
    method Request(env: Env) returns (out: Outcome)
      ensures isCheck ==> out == RationaleAsk(env, owner, requestCode, permissions)
      ensures !isCheck ==> out == DirectAsk(env, owner, requestCode, permissions)
    {
      if isCheck {
        out := ApplyPermissions(env, owner, requestCode, permissions);
      } else {
        out := RequestPermissions(env, owner, requestCode, permissions);
      }
    }
  }

  /** A request built without `showRationale` takes the direct path; one
      built with `showRationale(true)` takes the rationale path. */
  method BuildAndRequest(env: Env, o: Owner, code: int, perms: seq<Perm>, rationale: Option<bool>)
    returns (out: Outcome)
    ensures rationale != Some(true) ==> out == DirectAsk(env, o, code, Some(perms))
    ensures rationale == Some(true) ==> out == RationaleAsk(env, o, code, Some(perms))
  {
    var b := new LPermission.With(o);
    b := b.RequestCode(code);
    b := b.Permission(perms);
    if rationale.Some? {
      b := b.ShowRationale(rationale.value);
    }
    out := b.Request(env);
  }
}
