/** The helper predicates and filters of PermissionUtil: platform version,
    the activity behind an owner, the denied subset of a request, the grant
    vector check, the handler registry lookup and the context-level check. */
module PermissionUtil {
  import opened PermissionTypes

  /** Build.VERSION.SDK_INT < Build.VERSION_CODES.M: the platform grants every
      declared permission at install time. */
  function IsLowerMarshmallow(sdkInt: int): (lower: bool)
    ensures lower <==> sdkInt <= 22
  {
    sdkInt < VERSION_CODES_M
  }

  /** The activity behind an owner, or None (null) for a plain context. */
  function GetActivity(o: Owner): (r: Option<Owner>)
    ensures r.None? <==> o.Context?
    ensures r.Some? ==> r.value.Activity?
    ensures o.Activity? ==> r == Some(o)
    ensures o.SupportFragment? || o.PlatformFragment? ==> r == Some(Activity(o.host))
  {
    match o
    case Activity(_) => Some(o)
    case PlatformFragment(_, host) => Some(Activity(host))
    case SupportFragment(_, host) => Some(Activity(host))
    case Context(_) => None
  }

  /** Every permission of `perms` is granted. */
  predicate AllGranted(perms: seq<Perm>, granted: Perm -> bool)
  {
    forall i :: 0 <= i < |perms| ==> granted(perms[i])
  }

  /** The permissions of `perms` that are not granted, in request order. */
  function DeniedSubset(perms: seq<Perm>, granted: Perm -> bool): (d: seq<Perm>)
    ensures |d| <= |perms|
    ensures forall p :: p in d <==> p in perms && !granted(p)
    decreases |perms|
  {
    if perms == [] then []
    else
      var last := perms[|perms| - 1];
      DeniedSubset(perms[..|perms| - 1], granted) + (if granted(last) then [] else [last])
  }

  lemma {:induction false} DeniedIsSubsequence(perms: seq<Perm>, granted: Perm -> bool)
    ensures IsSubsequence(DeniedSubset(perms, granted), perms)
    decreases |perms|
  {
    if perms != [] {
      var front, last := perms[..|perms| - 1], perms[|perms| - 1];
      var d' := DeniedSubset(front, granted);
      DeniedIsSubsequence(front, granted);
      if granted(last) {
        assert DeniedSubset(perms, granted) == d';
        if d' != [] {
          assert d'[|d'| - 1] in d';
          assert d'[|d'| - 1] != last;
        }
      } else {
        assert (d' + [last])[..|d' + [last]| - 1] == d';
      }
    }
  }

  /** Each denied permission appears as often as it was requested; a granted
      one does not appear. */
  lemma {:induction false} DeniedCounts(perms: seq<Perm>, granted: Perm -> bool)
    ensures forall p :: multiset(DeniedSubset(perms, granted))[p]
                     == if granted(p) then 0 else multiset(perms)[p]
    decreases |perms|
  {
    if perms != [] {
      var front, last := perms[..|perms| - 1], perms[|perms| - 1];
      DeniedCounts(front, granted);
      assert perms == front + [last];
    }
  }

  lemma DeniedEmptyIffAllGranted(perms: seq<Perm>, granted: Perm -> bool)
    ensures DeniedSubset(perms, granted) == [] <==> AllGranted(perms, granted)
  {
  }

  /** getDeniedPermissions(activity, permissions): a null permission array, or a
      null activity reached with at least one permission, raises
      NullPointerException; otherwise the denied subset. */
  function DeniedOrFault(activity: Option<Owner>, perms: Option<seq<Perm>>, granted: Perm -> bool)
    : (r: Result<seq<Perm>>)
    ensures r.Throws? <==> perms.None? || (activity.None? && |perms.value| > 0)
    ensures r.Throws? ==> r.failure == NullPointer
    ensures r.Ok? ==> perms.Some? && r.value == DeniedSubset(perms.value, granted)
  {
    if perms.None? then Throws(NullPointer)
    else if activity.None? && |perms.value| > 0 then Throws(NullPointer)
    else Ok(DeniedSubset(perms.value, granted))
  }

  method GetDeniedPermissions(activity: Option<Owner>, perms: Option<seq<Perm>>, granted: Perm -> bool)
    returns (r: Result<seq<Perm>>)
    ensures r == DeniedOrFault(activity, perms, granted)
  {
    if perms.None? {
      return Throws(NullPointer);
    }
    var ps := perms.value;
    var denied: seq<Perm> := [];
    var i := 0;
    while i < |ps|
      invariant 0 <= i <= |ps|
      invariant i > 0 ==> activity.Some?
      invariant denied == DeniedSubset(ps[..i], granted)
    {
      if activity.None? {
        return Throws(NullPointer);
      }
      if !granted(ps[i]) {
        denied := denied + [ps[i]];
      }
      assert ps[..i + 1][..i] == ps[..i];
      i := i + 1;
    }
    assert ps[..i] == ps;
    return Ok(denied);
  }

  /** Every entry of a non-empty grant vector is PERMISSION_GRANTED. */
  predicate VerifiedGrants(grants: seq<int>)
  {
    |grants| > 0 && forall i :: 0 <= i < |grants| ==> grants[i] == PERMISSION_GRANTED
  }

  method VerifyPermission(grants: seq<int>) returns (ok: bool)
    ensures ok == VerifiedGrants(grants)
    ensures grants == [] ==> !ok
  {
    if |grants| < 1 {
      return false;
    }
    var i := 0;
    while i < |grants|
      invariant 0 <= i <= |grants|
      invariant forall j :: 0 <= j < i ==> grants[j] == PERMISSION_GRANTED
    {
      if grants[i] != PERMISSION_GRANTED {
        return false;
      }
      i := i + 1;
    }
    return true;
  }

  /** The annotation's value equals the request code; false for any
      annotation that is not one of the four outcome annotations. */
  function IsSameRequestCode(h: Handler, kind: Annotation, code: int): (r: bool)
    requires kind.Other? || kind in h.marks
    ensures kind.Other? ==> !r
    ensures !kind.Other? ==> (r <==> h.marks[kind] == code)
  {
    match kind
    case Granted => code == h.marks[Granted]
    case Denied => code == h.marks[Denied]
    case Rationale => code == h.marks[Rationale]
    case NeverAskAgain => code == h.marks[NeverAskAgain]
    case Other(_) => false
  }

  /** The handler carries `kind` and answers to `code`. */
  predicate Matches(h: Handler, kind: Annotation, code: int)
  {
    kind in h.marks && IsSameRequestCode(h, kind, code)
  }

  /** The declared handlers that match, in declaration order. */
  function Lookup(declared: seq<Handler>, kind: Annotation, code: int): (hs: seq<Handler>)
    ensures |hs| <= |declared|
    ensures forall h :: h in hs <==> h in declared && Matches(h, kind, code)
    ensures kind.Other? ==> hs == []
    decreases |declared|
  {
    if declared == [] then []
    else
      var last := declared[|declared| - 1];
      Lookup(declared[..|declared| - 1], kind, code) + (if Matches(last, kind, code) then [last] else [])
  }

  lemma {:induction false} LookupIsSubsequence(declared: seq<Handler>, kind: Annotation, code: int)
    ensures IsSubsequence(Lookup(declared, kind, code), declared)
    decreases |declared|
  {
    if declared != [] {
      var front, last := declared[..|declared| - 1], declared[|declared| - 1];
      var hs' := Lookup(front, kind, code);
      LookupIsSubsequence(front, kind, code);
      if !Matches(last, kind, code) {
        assert Lookup(declared, kind, code) == hs';
        if hs' != [] {
          assert hs'[|hs'| - 1] in hs';
          assert hs'[|hs'| - 1] != last;
        }
      } else {
        assert (hs' + [last])[..|hs' + [last]| - 1] == hs';
      }
    }
  }

  lemma {:induction false} LookupAppend(a: seq<Handler>, b: seq<Handler>, kind: Annotation, code: int)
    ensures Lookup(a + b, kind, code) == Lookup(a, kind, code) + Lookup(b, kind, code)
    decreases |b|
  {
    if b == [] {
      assert a + b == a;
    } else {
      var front := b[..|b| - 1];
      assert (a + b)[..|a + b| - 1] == a + front;
      LookupAppend(a, front, kind, code);
    }
  }

  /** When nothing before position `i` matches and the handler at `i` does,
      it heads the lookup. */
  lemma LookupFirstMatch(declared: seq<Handler>, i: nat, kind: Annotation, code: int)
    requires i < |declared|
    requires Lookup(declared[..i], kind, code) == []
    requires Matches(declared[i], kind, code)
    ensures Lookup(declared, kind, code) != [] && Lookup(declared, kind, code)[0] == declared[i]
  {
    var head := declared[..i + 1];
    assert head[..i] == declared[..i];
    assert Lookup(head, kind, code) == [declared[i]];
    assert declared == head + declared[i + 1..];
    LookupAppend(head, declared[i + 1..], kind, code);
  }

  method GetMethodByRequestCode(declared: seq<Handler>, kind: Annotation, code: int)
    returns (hs: seq<Handler>)
    ensures hs == Lookup(declared, kind, code)
  {
    hs := [];
    var i := 0;
    while i < |declared|
      invariant 0 <= i <= |declared|
      invariant hs == Lookup(declared[..i], kind, code)
    {
      var h := declared[i];
      if kind in h.marks {
        if IsSameRequestCode(h, kind, code) {
          hs := hs + [h];
        }
      }
      assert declared[..i + 1][..i] == declared[..i];
      i := i + 1;
    }
    assert declared[..i] == declared;
  }

  method GetMethodWithRequestCode(declared: seq<Handler>, kind: Annotation, code: int)
    returns (found: Option<Handler>)
    ensures found.None? <==> Lookup(declared, kind, code) == []
    ensures found.Some? ==> found.value == Lookup(declared, kind, code)[0]
  {
    var i := 0;
    while i < |declared|
      invariant 0 <= i <= |declared|
      invariant Lookup(declared[..i], kind, code) == []
    {
      var h := declared[i];
      if kind in h.marks {
        if IsSameRequestCode(h, kind, code) {
          LookupFirstMatch(declared, i, kind, code);
          return Some(h);
        }
      }
      assert declared[..i + 1][..i] == declared[..i];
      i := i + 1;
    }
    assert declared[..i] == declared;
    return None;
  }

  /** checkPermission(context, perms): true on a legacy platform (even for a
      null context); otherwise a null context raises IllegalArgumentException;
      otherwise whether every permission is granted. */
  method CheckPermission(sdkInt: int, context: Option<Owner>, perms: seq<Perm>, granted: Perm -> bool)
    returns (r: Result<bool>)
    ensures IsLowerMarshmallow(sdkInt) ==> r == Ok(true)
    ensures !IsLowerMarshmallow(sdkInt) && context.None? ==> r == Throws(IllegalArgument)
    ensures !IsLowerMarshmallow(sdkInt) && context.Some? ==> r == Ok(AllGranted(perms, granted))
  {
    if sdkInt < VERSION_CODES_M {
      return Ok(true);
    }
    if context.None? {
      return Throws(IllegalArgument);
    }
    var i := 0;
    while i < |perms|
      invariant 0 <= i <= |perms|
      invariant forall j :: 0 <= j < i ==> granted(perms[j])
    {
      if !granted(perms[i]) {
        return Ok(false);
      }
      i := i + 1;
    }
    return Ok(true);
  }
}
