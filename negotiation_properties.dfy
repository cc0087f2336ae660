/** What the engine promises, stated over the effect lists of its three
    entry points. `Markers` drops the individual handler invocations and
    keeps the decisions: host requests and outcome dispatches. */
module NegotiationProperties {
  import opened PermissionTypes
  import opened PermissionUtil
  import opened Negotiation

  /** The effects other than handler invocations, in order. */
  function Markers(fx: seq<Event>): (ms: seq<Event>)
    ensures |ms| <= |fx|
    ensures forall e :: e in ms ==> e in fx && !e.Invoke?
  {
    if |fx| == 0 then []
    else (if fx[0].Invoke? then [] else [fx[0]]) + Markers(fx[1..])
  }

  lemma {:induction false} InvokedHasNoMarkers(target: Owner, hs: seq<Handler>)
    ensures Markers(Invoked(target, hs)) == []
    decreases |hs|
  {
    if |hs| > 0 {
      var fx := Invoked(target, hs);
      assert fx[0] == Invoke(target, hs[0].name);
      if !hs[0].fails {
        assert fx[1..] == Invoked(target, hs[1..]);
        InvokedHasNoMarkers(target, hs[1..]);
      } else {
        assert fx[1..] == [];
      }
    }
  }

  /** A dispatch shows up as exactly one marker, however many handlers run. */
  lemma DispatchedMarkers(env: Env, target: Owner, code: int, kind: Annotation)
    ensures Markers(Dispatched(env, target, code, kind)) == [Dispatch(kind, code, target)]
  {
    var run := Invoked(target, Lookup(env.declared(target), kind, code));
    InvokedHasNoMarkers(target, Lookup(env.declared(target), kind, code));
    assert ([Dispatch(kind, code, target)] + run)[1..] == run;
  }

  /** On a legacy platform, or when nothing requested is denied (and the denied
      scan can run), both ask paths dispatch GRANTED once to the owner and ask
      the host nothing. */
  lemma GrantedWithoutAsking(env: Env, owner: Owner, code: int, perms: Option<seq<Perm>>)
    requires IsLowerMarshmallow(env.sdkInt)
          || (perms.Some? && AllGranted(perms.value, env.granted) && (!owner.Context? || perms.value == []))
    ensures DirectAsk(env, owner, code, perms).thrown.None?
    ensures Markers(DirectAsk(env, owner, code, perms).effects) == [Dispatch(Granted, code, owner)]
    ensures RationaleAsk(env, owner, code, perms).thrown.None?
    ensures Markers(RationaleAsk(env, owner, code, perms).effects) == [Dispatch(Granted, code, owner)]
  {
    DispatchedMarkers(env, owner, code, Granted);
    if !IsLowerMarshmallow(env.sdkInt) {
      DeniedEmptyIffAllGranted(perms.value, env.granted);
    }
  }

  /** The direct path with something denied asks the host once, for the whole
      requested list under the same code, and dispatches nothing. */
  lemma DirectAskRequestsFullList(env: Env, owner: Owner, code: int, perms: seq<Perm>)
    requires !IsLowerMarshmallow(env.sdkInt) && CanAskHost(owner)
    requires !AllGranted(perms, env.granted)
    ensures DirectAsk(env, owner, code, Some(perms)) == Outcome([AskHost(owner, perms, code)], None)
  {
  }

  /** The rationale path with something denied: if any requested permission
      shows a rationale, RATIONALE is dispatched once to the owner's activity
      and the host is not asked; otherwise the host is asked once for the whole
      list. */
  lemma RationaleAskExplainsOrRequests(env: Env, owner: Owner, code: int, perms: seq<Perm>)
    requires !IsLowerMarshmallow(env.sdkInt) && CanAskHost(owner)
    requires !AllGranted(perms, env.granted)
    ensures var o := RationaleAsk(env, owner, code, Some(perms));
      AnyRationale(perms, env.rationale) ==>
        o.thrown.None? && Markers(o.effects) == [Dispatch(Rationale, code, GetActivity(owner).value)]
    ensures !AnyRationale(perms, env.rationale) ==>
      RationaleAsk(env, owner, code, Some(perms)) == Outcome([AskHost(owner, perms, code)], None)
  {
    DeniedEmptyIffAllGranted(perms, env.granted);
    DispatchedMarkers(env, GetActivity(owner).value, code, Rationale);
  }

  /** onPermissionResult dispatches exactly one outcome: GRANTED to the owner
      for a verified vector; otherwise DENIED to the owner while some
      permission still shows a rationale, NEVER_ASK_AGAIN to the owner's
      activity when none does, and never RATIONALE. An owner the host cannot
      be asked for raises IllegalArgumentException unless everything was
      granted. */
  lemma ResultClassification(env: Env, owner: Owner, code: int, perms: seq<Perm>, grants: seq<int>)
    ensures var o := ResultOf(env, owner, code, perms, grants);
      VerifiedGrants(grants) ==> o.thrown.None? && Markers(o.effects) == [Dispatch(Granted, code, owner)]
    ensures var o := ResultOf(env, owner, code, perms, grants);
      !VerifiedGrants(grants) && CanAskHost(owner) && AnyRationale(perms, env.rationale) ==>
        o.thrown.None? && Markers(o.effects) == [Dispatch(Denied, code, owner)]
    ensures var o := ResultOf(env, owner, code, perms, grants);
      !VerifiedGrants(grants) && CanAskHost(owner) && !AnyRationale(perms, env.rationale) ==>
        o.thrown.None? && Markers(o.effects) == [Dispatch(NeverAskAgain, code, GetActivity(owner).value)]
    ensures !VerifiedGrants(grants) && !CanAskHost(owner) ==>
      ResultOf(env, owner, code, perms, grants) == Outcome([], Some(IllegalArgument))
  {
    DispatchedMarkers(env, owner, code, Granted);
    DispatchedMarkers(env, owner, code, Denied);
    if owner.Activity? || owner.SupportFragment? || owner.PlatformFragment? {
      DispatchedMarkers(env, GetActivity(owner).value, code, NeverAskAgain);
    }
  }

  /** Every outcome dispatch in `fx` goes to `fragment`, except RATIONALE and
      NEVER_ASK_AGAIN, which go to the activity `host`. */
  ghost predicate RoutedForFragment(fragment: Owner, host: string, fx: seq<Event>)
  {
    forall e :: e in Markers(fx) && e.Dispatch? ==>
      e.target == (if e.kind == Rationale || e.kind == NeverAskAgain then Activity(host) else fragment)
  }

  /** A single marker that is routed correctly makes the whole list routed. */
  lemma RoutedBySingleMarker(fragment: Owner, host: string, fx: seq<Event>, m: Event)
    requires Markers(fx) == [m]
    requires m.Dispatch? ==>
      m.target == (if m.kind == Rationale || m.kind == NeverAskAgain then Activity(host) else fragment)
    ensures RoutedForFragment(fragment, host, fx)
  {
  }

  /** For a support Fragment, GRANTED is dispatched to the fragment and
      RATIONALE to its activity on both ask paths. */
  lemma SupportFragmentAskRouting(env: Env, id: string, host: string, code: int,
                                  perms: Option<seq<Perm>>, isCheck: bool)
    ensures var f := SupportFragment(id, host);
      RoutedForFragment(f, host, if isCheck then RationaleAsk(env, f, code, perms).effects
                                 else DirectAsk(env, f, code, perms).effects)
  {
    var f := SupportFragment(id, host);
    var o := if isCheck then RationaleAsk(env, f, code, perms) else DirectAsk(env, f, code, perms);
    if o.effects == [] {
      assert Markers(o.effects) == [];
    } else if o.effects == Dispatched(env, f, code, Granted) {
      DispatchedMarkers(env, f, code, Granted);
      RoutedBySingleMarker(f, host, o.effects, Dispatch(Granted, code, f));
    } else if o.effects == Dispatched(env, Activity(host), code, Rationale) {
      DispatchedMarkers(env, Activity(host), code, Rationale);
      RoutedBySingleMarker(f, host, o.effects, Dispatch(Rationale, code, Activity(host)));
    } else {
      assert o.effects == [AskHost(f, perms.value, code)];
      assert Markers(o.effects) == [AskHost(f, perms.value, code)];
      RoutedBySingleMarker(f, host, o.effects, AskHost(f, perms.value, code));
    }
  }

  /** For a support Fragment, GRANTED and DENIED results are dispatched to the
      fragment and NEVER_ASK_AGAIN to its activity. */
  lemma SupportFragmentResultRouting(env: Env, id: string, host: string, code: int,
                                     perms: seq<Perm>, grants: seq<int>)
    ensures var f := SupportFragment(id, host);
      RoutedForFragment(f, host, ResultOf(env, f, code, perms, grants).effects)
  {
    var f := SupportFragment(id, host);
    var fx := ResultOf(env, f, code, perms, grants).effects;
    if VerifiedGrants(grants) {
      DispatchedMarkers(env, f, code, Granted);
      RoutedBySingleMarker(f, host, fx, Dispatch(Granted, code, f));
    } else if AnyRationale(perms, env.rationale) {
      DispatchedMarkers(env, f, code, Denied);
      RoutedBySingleMarker(f, host, fx, Dispatch(Denied, code, f));
    } else {
      DispatchedMarkers(env, Activity(host), code, NeverAskAgain);
      RoutedBySingleMarker(f, host, fx, Dispatch(NeverAskAgain, code, Activity(host)));
    }
  }

  /** An owner the host cannot be asked for (a platform Fragment or a plain
      Context) never produces a host request: either GRANTED is dispatched to
      it or an exception escapes before any effect. A platform Fragment reaches
      the IllegalArgumentException only when something is denied; a plain
      Context has no activity, so the denied scan dereferences null and raises
      NullPointerException for any non-empty list. */
  lemma UnsupportedOwnerAsk(env: Env, owner: Owner, code: int, perms: Option<seq<Perm>>, isCheck: bool)
    requires !CanAskHost(owner)
    ensures var o := if isCheck then RationaleAsk(env, owner, code, perms) else DirectAsk(env, owner, code, perms);
      o.thrown.None? ==> Markers(o.effects) == [Dispatch(Granted, code, owner)]
    ensures var o := if isCheck then RationaleAsk(env, owner, code, perms) else DirectAsk(env, owner, code, perms);
      o.thrown.Some? ==> o.effects == []
    ensures var o := if isCheck then RationaleAsk(env, owner, code, perms) else DirectAsk(env, owner, code, perms);
      owner.PlatformFragment? ==>
        o.thrown == (if IsLowerMarshmallow(env.sdkInt) then None
                     else if perms.None? then Some(NullPointer)
                     else if AllGranted(perms.value, env.granted) then None
                     else Some(IllegalArgument))
    ensures var o := if isCheck then RationaleAsk(env, owner, code, perms) else DirectAsk(env, owner, code, perms);
      owner.Context? ==>
        o.thrown == (if IsLowerMarshmallow(env.sdkInt) || perms == Some([]) then None else Some(NullPointer))
  {
    DispatchedMarkers(env, owner, code, Granted);
    if perms.Some? {
      DeniedEmptyIffAllGranted(perms.value, env.granted);
    }
  }

  /** Each ask path has exactly one of four effects: GRANTED dispatched, the
      host asked (for the full list, by an owner that can ask), RATIONALE
      dispatched (rationale path only), or an exception with no effect. */
  lemma AskPhaseHasOneEffect(env: Env, owner: Owner, code: int, perms: Option<seq<Perm>>, isCheck: bool)
    ensures var o := if isCheck then RationaleAsk(env, owner, code, perms) else DirectAsk(env, owner, code, perms);
      o.thrown.Some? ==> o.effects == []
    ensures var o := if isCheck then RationaleAsk(env, owner, code, perms) else DirectAsk(env, owner, code, perms);
      o.thrown.None? ==> |Markers(o.effects)| == 1
    ensures var o := if isCheck then RationaleAsk(env, owner, code, perms) else DirectAsk(env, owner, code, perms);
      o.thrown.None? && Markers(o.effects)[0].AskHost? ==>
        CanAskHost(owner) && perms.Some? && o.effects == [AskHost(owner, perms.value, code)]
    ensures var o := if isCheck then RationaleAsk(env, owner, code, perms) else DirectAsk(env, owner, code, perms);
      o.thrown.None? && Markers(o.effects)[0].Dispatch? ==>
        Markers(o.effects)[0].kind == Granted || (isCheck && Markers(o.effects)[0].kind == Rationale)
  {
    DispatchedMarkers(env, owner, code, Granted);
    if CanAskHost(owner) {
      DispatchedMarkers(env, GetActivity(owner).value, code, Rationale);
    }
    if perms.Some? {
      assert Markers([AskHost(owner, perms.value, code)]) == [AskHost(owner, perms.value, code)];
    }
  }

  /** An activity asks for CAMERA under code 7 while CAMERA is denied: the host
      is asked once and nothing is dispatched; a granted result dispatches
      GRANTED, a denied one without a rationale NEVER_ASK_AGAIN. */
  lemma CameraScenario(env: Env)
    requires !IsLowerMarshmallow(env.sdkInt)
    requires !env.granted("android.permission.CAMERA")
    ensures DirectAsk(env, Activity("O"), 7, Some(["android.permission.CAMERA"]))
         == Outcome([AskHost(Activity("O"), ["android.permission.CAMERA"], 7)], None)
    ensures Markers(ResultOf(env, Activity("O"), 7, ["android.permission.CAMERA"], [PERMISSION_GRANTED]).effects)
         == [Dispatch(Granted, 7, Activity("O"))]
    ensures !env.rationale("android.permission.CAMERA") ==>
      Markers(ResultOf(env, Activity("O"), 7, ["android.permission.CAMERA"], [PERMISSION_DENIED]).effects)
        == [Dispatch(NeverAskAgain, 7, Activity("O"))]
  {
    var camera := ["android.permission.CAMERA"];
    assert !AllGranted(camera, env.granted) by {
      assert !env.granted(camera[0]);
    }
    DirectAskRequestsFullList(env, Activity("O"), 7, camera);
    assert !VerifiedGrants([PERMISSION_DENIED]) by {
      assert [PERMISSION_DENIED][0] != PERMISSION_GRANTED;
    }
    if !env.rationale(camera[0]) {
      assert !AnyRationale(camera, env.rationale);
    }
    ResultClassification(env, Activity("O"), 7, camera, [PERMISSION_GRANTED]);
    ResultClassification(env, Activity("O"), 7, camera, [PERMISSION_DENIED]);
  }
}
