/** Values shared by the permission utilities and the negotiation engine:
    the owners a request can be made from, the handler annotations, the
    declared handler records that stand in for reflection, the effects the
    engine emits and the platform oracles it consults. */
module PermissionTypes {

  /** A permission name such as "android.permission.CAMERA". */
  type Perm = string

  /** PackageManager.PERMISSION_GRANTED and PERMISSION_DENIED. */
  const PERMISSION_GRANTED: int := 0
  const PERMISSION_DENIED: int := -1

  /** Build.VERSION_CODES.M, the first platform with runtime permissions. */
  const VERSION_CODES_M: int := 23

  datatype Option<T> = None | Some(value: T)

  /** The object a request is built with. `SupportFragment` is the support-library
      fragment, `PlatformFragment` the android.app one; `host` names the activity
      a fragment is attached to. `Context` is any other context (not an activity). */
  datatype Owner =
    | Activity(id: string)
    | SupportFragment(id: string, host: string)
    | PlatformFragment(id: string, host: string)
    | Context(id: string)

  /** The handler annotations. `Other` is any annotation class that is not
      one of the four outcome annotations. */
  datatype Annotation = Granted | Denied | Rationale | NeverAskAgain | Other(name: string)

  /** A declared method of an owner's class: its name, the annotations it
      carries with their request-code values, and whether invoking it fails
      (the reflective call throws IllegalAccessException or
      InvocationTargetException). */
  datatype Handler = Handler(name: string, marks: map<Annotation, int>, fails: bool)

  /** The unchecked exceptions the engine can raise to its caller. */
  datatype Failure = IllegalArgument | NullPointer

  datatype Result<T> = Ok(value: T) | Throws(failure: Failure)

  /** Observable effects, in the order they happen:
      - `AskHost`: the owner's platform `requestPermissions(perms, code)`;
      - `Dispatch`: a call of `callAnnotation` for an annotation kind on a target;
      - `Invoke`: one reflective invocation of a handler on a target. */
  datatype Event =
    | AskHost(owner: Owner, perms: seq<Perm>, code: int)
    | Dispatch(kind: Annotation, code: int, target: Owner)
    | Invoke(target: Owner, handler: string)

  /** What one call of the engine does: the effects it emitted and the
      exception, if any, that escaped to the caller. */
  datatype Outcome = Outcome(effects: seq<Event>, thrown: Option<Failure>)

  /** The platform as the engine sees it: Build.VERSION.SDK_INT,
      checkSelfPermission, shouldShowRequestPermissionRationale, and the
      declared methods of each object's class. */
  datatype Env = Env(
    sdkInt: int,
    granted: Perm -> bool,
    rationale: Perm -> bool,
    declared: Owner -> seq<Handler>)

  /** `a` is `b` with some elements removed, order kept. */
  ghost predicate IsSubsequence<T>(a: seq<T>, b: seq<T>)
    decreases |b|
  {
    if a == [] then true
    else if b == [] then false
    else if a[|a| - 1] == b[|b| - 1] then IsSubsequence(a[..|a| - 1], b[..|b| - 1])
    else IsSubsequence(a, b[..|b| - 1])
  }
}
