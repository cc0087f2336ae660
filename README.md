# LPermission negotiation engine in Dafny

A model of the runtime-permission helper of the LPermission Android library:
the fluent builder `LPermission.with(owner).requestCode(c).permission(...).showRationale(b).request()`,
its two ask paths (`requestPermissions` and the rationale-checking `applyPermissions`),
the result handler `onPermissionResult`, the reflective handler dispatch `callAnnotation`,
and the helpers of `PermissionUtil` they rely on.

The Android platform is an `Env` value: `sdkInt` (Build.VERSION.SDK_INT, legacy when below 23),
`granted(p)` (checkSelfPermission), `rationale(p)` (shouldShowRequestPermissionRationale) and
`declared(o)` (the declared methods of an object's class, each a `Handler` record carrying its
outcome annotations with their request codes and a flag telling whether invoking it fails).
The owner is an `Owner` value: an Activity, a support-library Fragment, a platform
(android.app) Fragment or any other Context; fragments name their host activity.

The three entry points (`RequestPermissions`, `ApplyPermissions`, `OnPermissionResult`, and
their specifications `DirectAsk`, `RationaleAsk`, `ResultOf`) return an `Outcome`: the effects
emitted in order — `AskHost`
(the owner's platform `requestPermissions(perms, code)`), `Dispatch` (a call of
`callAnnotation` for one outcome kind on one target) and `Invoke` (one reflective handler
invocation) — and the exception, if any, that escapes to the caller (`IllegalArgument` or
`NullPointer`). `CallAnnotation` returns its effects alone, and the two rationale scans
return their answer with their effects. The methods (`RequestPermissions`, `ApplyPermissions`, `OnPermissionResult`,
`CallAnnotation`, the two rationale scans) run the source's loops and are proved equal to the
functions `DirectAsk`, `RationaleAsk`, `ResultOf` and `Dispatched`; the lemmas of
`NegotiationProperties` state what those functions promise, through `Markers` (the effects
other than handler invocations).

Files: `types.dfy` (shared values), `permission_util.dfy` (PermissionUtil),
`negotiation.dfy` (LPermission), `negotiation_properties.dfy` (the engine's properties).

## Behaviour as the code has it

- The host request carries the full requested list, not only the denied subset
  (LPermission.java:155, 157, 183, 187).
- The rationale scans look at every requested permission, granted or not (LPermission.java:265, 283).
- After a result, a permission that still shows a rationale yields DENIED only; no RATIONALE
  is dispatched on that path (LPermission.java:282-290).
- An empty grant vector is not verified (PermissionUtil.java:151-153), so it goes through the
  rationale scan: DENIED if some permission shows a rationale, NEVER_ASK_AGAIN otherwise.
- A failing handler ends the dispatch: the try block wraps the whole loop, so later handlers
  of that dispatch are not invoked, and nothing reaches the caller (LPermission.java:224-233).
- `request()` validates nothing. A request built without `permission(...)` has a null array:
  on a legacy platform it dispatches GRANTED, otherwise the denied scan raises NullPointerException.
- A plain Context owner has no activity (PermissionUtil.java:68), so with a non-empty list on a
  current platform the denied scan dereferences null and raises NullPointerException before the
  "is not supported" check of the ask paths is reached; only a platform Fragment reaches that
  IllegalArgumentException on an ask path. On the result path both raise IllegalArgumentException
  unless everything was granted.
- The `Fragment` tested in LPermission.java is the support-library one (LPermission.java:9);
  PermissionUtil's `getActivity` handles both kinds (PermissionUtil.java:63-66).

## Model

| member | source | states |
|---|---|---|
| PermissionUtil.IsLowerMarshmallow | app/src/main/java/com/lewis/lpermission/permission/PermissionUtil.java:33-35 | the platform is legacy exactly when SDK_INT is at most 22, i.e. below M (23) |
| PermissionUtil.GetActivity | app/src/main/java/com/lewis/lpermission/permission/PermissionUtil.java:60-69 | the owner itself for an Activity, the host activity for either fragment kind, None (null) exactly for a plain Context |
| PermissionUtil.DeniedSubset | app/src/main/java/com/lewis/lpermission/permission/PermissionUtil.java:97-105 | a permission is in the result iff it is requested and not granted; the result is no longer than the request |
| PermissionUtil.DeniedIsSubsequence | app/src/main/java/com/lewis/lpermission/permission/PermissionUtil.java:98-104 | the denied permissions keep the request order (a subsequence of the input) |
| PermissionUtil.DeniedCounts | app/src/main/java/com/lewis/lpermission/permission/PermissionUtil.java:98-104 | every not-granted permission occurs in the result as many times as in the request; a granted one does not occur |
| PermissionUtil.DeniedEmptyIffAllGranted | app/src/main/java/com/lewis/lpermission/permission/PermissionUtil.java:97-105 | the denied subset is empty iff every requested permission is granted |
| PermissionUtil.DeniedOrFault | app/src/main/java/com/lewis/lpermission/permission/PermissionUtil.java:97-105 | NullPointerException iff the array is null or a null activity meets a non-empty list; otherwise the denied subset |
| PermissionUtil.GetDeniedPermissions | app/src/main/java/com/lewis/lpermission/permission/PermissionUtil.java:79-105 | the loop (either overload) returns exactly the denied subset in order, or the NullPointerException above |
| PermissionUtil.VerifyPermission | app/src/main/java/com/lewis/lpermission/permission/PermissionUtil.java:149-162 | true iff the vector is non-empty and every entry is PERMISSION_GRANTED (0); false for an empty vector |
| PermissionUtil.IsSameRequestCode | app/src/main/java/com/lewis/lpermission/permission/PermissionUtil.java:130-141 | false for any annotation other than the four outcome annotations; for those, equality of the annotation value with the request code |
| PermissionUtil.Lookup | app/src/main/java/com/lewis/lpermission/permission/PermissionUtil.java:107-117 | a handler is selected iff it is declared, carries the annotation and its value equals the code; nothing is selected for another annotation |
| PermissionUtil.LookupIsSubsequence | app/src/main/java/com/lewis/lpermission/permission/PermissionUtil.java:109-115 | the selected handlers keep declaration order |
| PermissionUtil.LookupAppend | app/src/main/java/com/lewis/lpermission/permission/PermissionUtil.java:109-115 | the lookup over a concatenation is the concatenation of the lookups |
| PermissionUtil.LookupFirstMatch | app/src/main/java/com/lewis/lpermission/permission/PermissionUtil.java:120-126 | the first matching declared handler heads the lookup |
| PermissionUtil.GetMethodByRequestCode | app/src/main/java/com/lewis/lpermission/permission/PermissionUtil.java:107-117 | the loop returns exactly the lookup, in declaration order |
| PermissionUtil.GetMethodWithRequestCode | app/src/main/java/com/lewis/lpermission/permission/PermissionUtil.java:119-128 | the first handler of the lookup, or None (null) iff the lookup is empty |
| PermissionUtil.CheckPermission | app/src/main/java/com/lewis/lpermission/permission/PermissionUtil.java:172-190 | true on a legacy platform even for a null context; otherwise a null context raises IllegalArgumentException; otherwise true iff every permission is granted |
| Negotiation.Invoked | app/src/main/java/com/lewis/lpermission/permission/LPermission.java:224-233 | the invocation run is no longer than the handler list and holds only invocations on the dispatch target |
| Negotiation.Dispatched | app/src/main/java/com/lewis/lpermission/permission/LPermission.java:221-235 | a dispatch starts with its marker for the kind, code and target, followed only by invocations on that target, at most one per selected handler |
| Negotiation.DirectAsk | app/src/main/java/com/lewis/lpermission/permission/LPermission.java:147-164 | an exception leaves no effect; legacy never throws and dispatches GRANTED to the owner; IllegalArgumentException only for an owner that cannot ask the host; a host request is the sole effect, for the full list, by an Activity or support Fragment; the only dispatch is GRANTED to the owner |
| Negotiation.RationaleAsk | app/src/main/java/com/lewis/lpermission/permission/LPermission.java:174-195 | as DirectAsk, except that a host request needs no permission to show a rationale, and the only dispatches are GRANTED to the owner or RATIONALE to the owner's activity |
| Negotiation.ResultOf | app/src/main/java/com/lewis/lpermission/permission/LPermission.java:237-254 | an exception (IllegalArgumentException, no effect) exactly when the vector is not verified and the owner cannot ask the host; otherwise a single dispatch first, never RATIONALE, GRANTED exactly when the vector is verified |
| Negotiation.InvokedIsPrefixRun | app/src/main/java/com/lewis/lpermission/permission/LPermission.java:221-235 | handlers are invoked in lookup order; every invoked handler but the last succeeded; a run cut short ends on a failing handler; with no failure all are invoked |
| Negotiation.InvokeAll | app/src/main/java/com/lewis/lpermission/permission/LPermission.java:224-233 | the loop emits exactly the invocation run, stopping after the first failure |
| Negotiation.CallAnnotation | app/src/main/java/com/lewis/lpermission/permission/LPermission.java:221-235 | one dispatch of the kind to the target followed by the invocation run over the lookup; no exception escapes |
| Negotiation.ShouldShowRequestPermissionRationale | app/src/main/java/com/lewis/lpermission/permission/LPermission.java:264-272 | true iff some requested permission shows a rationale, and then exactly one RATIONALE dispatch to the given activity; no effect otherwise |
| Negotiation.ShouldShowNeverAskAgainTip | app/src/main/java/com/lewis/lpermission/permission/LPermission.java:282-290 | true with no effect iff some permission shows a rationale; otherwise exactly one NEVER_ASK_AGAIN dispatch to the given activity |
| Negotiation.RequestPermissions | app/src/main/java/com/lewis/lpermission/permission/LPermission.java:147-164 | the direct ask path emits exactly DirectAsk's effects and exception |
| Negotiation.ApplyPermissions | app/src/main/java/com/lewis/lpermission/permission/LPermission.java:174-195 | the rationale ask path emits exactly RationaleAsk's effects and exception |
| Negotiation.OnPermissionResult | app/src/main/java/com/lewis/lpermission/permission/LPermission.java:237-254 | the result path emits exactly ResultOf's effects and exception |
| Negotiation.LPermission.With | app/src/main/java/com/lewis/lpermission/permission/LPermission.java:43-89 | a new builder holds the owner, request code 0, a null permission array and the rationale flag off |
| Negotiation.LPermission.RequestCode | app/src/main/java/com/lewis/lpermission/permission/LPermission.java:98-101 | sets the request code, leaves the other fields, returns the same builder |
| Negotiation.LPermission.Permission | app/src/main/java/com/lewis/lpermission/permission/LPermission.java:110-113 | sets the permission array, leaves the other fields, returns the same builder |
| Negotiation.LPermission.ShowRationale | app/src/main/java/com/lewis/lpermission/permission/LPermission.java:122-125 | sets the rationale flag, leaves the other fields, returns the same builder |
| Negotiation.LPermission.Request | app/src/main/java/com/lewis/lpermission/permission/LPermission.java:131-137 | the rationale path when the flag is set, the direct path otherwise, on the builder's current fields |
| Negotiation.BuildAndRequest | app/src/main/java/com/lewis/lpermission/permission/LPermission.java:36-40 | a request built without showRationale, or with showRationale(false) last, takes the direct path; with showRationale(true) the rationale path |
| NegotiationProperties.GrantedWithoutAsking | app/src/main/java/com/lewis/lpermission/permission/LPermission.java:147-195 | legacy platform or nothing denied: on both paths exactly one GRANTED dispatch to the owner, no host request, no exception |
| NegotiationProperties.DirectAskRequestsFullList | app/src/main/java/com/lewis/lpermission/permission/LPermission.java:152-158 | direct path, something denied, Activity or support-Fragment owner: the only effect is one host request for the full list under the same code |
| NegotiationProperties.RationaleAskExplainsOrRequests | app/src/main/java/com/lewis/lpermission/permission/LPermission.java:179-188 | rationale path, something denied: some permission with a rationale gives exactly one RATIONALE dispatch (to the owner's activity) and no host request; none gives exactly one host request for the full list |
| NegotiationProperties.ResultClassification | app/src/main/java/com/lewis/lpermission/permission/LPermission.java:237-290 | verified vector: exactly GRANTED to the owner; otherwise exactly DENIED to the owner (some rationale) or NEVER_ASK_AGAIN to its activity (none), never both, never RATIONALE; other owners raise IllegalArgumentException with no effect |
| NegotiationProperties.SupportFragmentAskRouting | app/src/main/java/com/lewis/lpermission/permission/LPermission.java:256-272 | for a support Fragment on either ask path, GRANTED goes to the fragment and RATIONALE to its host activity |
| NegotiationProperties.SupportFragmentResultRouting | app/src/main/java/com/lewis/lpermission/permission/LPermission.java:274-290 | for a support Fragment, GRANTED and DENIED go to the fragment and NEVER_ASK_AGAIN to its host activity |
| NegotiationProperties.UnsupportedOwnerAsk | app/src/main/java/com/lewis/lpermission/permission/LPermission.java:147-195 | a platform Fragment or Context owner never asks the host: GRANTED or an exception before any effect; a platform Fragment raises IllegalArgumentException iff something is denied; a Context raises NullPointerException for any non-empty list |
| NegotiationProperties.AskPhaseHasOneEffect | app/src/main/java/com/lewis/lpermission/permission/LPermission.java:147-195 | each ask path has exactly one of: GRANTED dispatch, host request for the full list, RATIONALE dispatch (rationale path only), exception with no effect |
| NegotiationProperties.CameraScenario | app/src/main/java/com/lewis/lpermission/permission/LPermission.java:147-254 | an activity asking for a denied CAMERA under code 7 asks the host once with no dispatch; a granted result dispatches GRANTED; a denied one without rationale NEVER_ASK_AGAIN |

## Left out

- Java reflection (`getDeclaredMethods`, `isAnnotationPresent`, `setAccessible`, `invoke`): the declared methods of each object are `Env.declared`, a sequence of `Handler` records in declaration order; their order on the JVM is unspecified, the model fixes one. Lookup is per object rather than per class.
- What a handler does when invoked: an `Invoke` effect records the call only. A handler that itself calls `request()` again (as the RATIONALE handler of the demo screen does) asks the host from inside a dispatch; that request is not part of the effect list, so "no host request" in the properties speaks of the engine's own effects.
- A handler that throws is a `fails` flag on its record; handlers are invoked with no arguments, and the IllegalArgumentException `invoke` would raise for a handler declared with parameters (not caught by the source) is not modelled.
- All Android calls (`Build.VERSION`, `checkSelfPermission`, `shouldShowRequestPermissionRationale`, the owners' `requestPermissions`) are fields of `Env` or the `AskHost` effect; `getContext` is cast plumbing with no caller in the engine; `Log.w` and `printStackTrace` are logging.
- The asynchronous permission dialog: the ask paths and `onPermissionResult` are independent entry points.
- A fragment detached from its activity (`getActivity()` returning null) and a null owner: every fragment in the model has a host activity.
- Null entries inside a permission array.
- The annotation declarations (`PermissionGranted`, `PermissionDenied`, `PermissionRationale`) become the `Annotation` datatype; each handler record carries its codes explicitly, so the default value 0 of Granted and Denied is not represented. `PermissionNeverAskAgain` is not part of this model beyond its kind.
- TestActivity.java, a demo screen.
