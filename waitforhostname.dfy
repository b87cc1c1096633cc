/**
 * The kubelet pod-admit handler that holds a pending pod back until its
 * `spec.hostname` is populated, when the pod's annotations ask for that.
 * The handler has no state and never changes the pod: it reads three fields
 * and returns a fresh admit result.
 */
module WaitForHostname {
  import opened Wrappers
  import opened Strconv

  /** The annotation that asks the kubelet to wait for `spec.hostname`. */
  const WaitForHostnameAnnotation := "naming.tess.io/wait-for-hostname"

  /** The reason code carried by every rejection of this handler. */
  const WaitForHostnameReason := "WaitForHostname"

  /** The message of a rejection for a missing hostname. */
  const HostnameNotAvailableMessage := "Pod spec.hostname not available yet"

  datatype PodPhase = Pending | Running | Succeeded | Failed | Unknown

  /** The part of a pod the handler reads; `annotations == None` is a nil map. */
  datatype Pod = Pod(phase: PodPhase, annotations: Option<map<string, string>>, hostname: string)

  /** A kubelet admit decision; `reason` and `message` are empty on admission. */
  datatype PodAdmitResult = PodAdmitResult(admit: bool, reason: string, message: string)

  /** The admitting result, with empty reason and message. */
  const Admitted := PodAdmitResult(true, "", "")

  /** The value of the wait annotation, `None` when the map is nil or lacks the key. */
  function WaitValue(pod: Pod): Option<string>
  {
    match pod.annotations
    case None => None
    case Some(m) => if WaitForHostnameAnnotation in m then Some(m[WaitForHostnameAnnotation]) else None
  }

  /**
   * The text of a rejection for an unparseable value, before the quoted value;
   * the key contains no character that quoting escapes.
   */
  const ParseErrorPrefix := "Error parsing value for annotation \"" + WaitForHostnameAnnotation
    + "\": strconv.ParseBool: parsing "

  /** The text of a rejection for an unparseable value, after the quoted value. */
  const ParseErrorSuffix := ": invalid syntax"

  /**
   * The message of a rejection for an annotation value that is not a boolean
   * literal: the annotation key, then the error of `strconv.ParseBool`, which
   * quotes the value.
   */
  function ParseErrorMessage(value: string): (msg: string)
    ensures ValueInParseErrorMessage(msg) == Some(value)
  {
    var msg := ParseErrorPrefix + Quote(value) + ParseErrorSuffix;
    assert msg[..|ParseErrorPrefix|] == ParseErrorPrefix;
    assert msg[|msg| - |ParseErrorSuffix|..] == ParseErrorSuffix;
    assert msg[|ParseErrorPrefix|..|msg| - |ParseErrorSuffix|] == Quote(value);
    msg
  }

  /** Reads the offending annotation value back out of a parse-error message. */
  function ValueInParseErrorMessage(msg: string): Option<string>
  {
    if |msg| >= |ParseErrorPrefix| + |ParseErrorSuffix|
       && msg[..|ParseErrorPrefix|] == ParseErrorPrefix
       && msg[|msg| - |ParseErrorSuffix|..] == ParseErrorSuffix
    then Unquote(msg[|ParseErrorPrefix|..|msg| - |ParseErrorSuffix|])
    else None
  }

  /**
   * Declarative statement of when the pod must be held back: it is pending,
   * carries the wait annotation, and that annotation is either not a boolean
   * literal or a true literal while the hostname is still empty.
   */
  ghost predicate MustWait(pod: Pod)
  {
    pod.phase == Pending &&
    pod.annotations.Some? &&
    WaitForHostnameAnnotation in pod.annotations.value &&
    var v := pod.annotations.value[WaitForHostnameAnnotation];
    v !in FalseLiterals && (v !in TrueLiterals || pod.hostname == "")
  }

  /**
   * `waitForHostnameAdmitHandler.Admit`: the short-circuiting chain of checks
   * on phase, annotations, the parsed wait annotation and the hostname.
   */
  function Admit(pod: Pod): (r: PodAdmitResult)
    ensures r.admit <==> !MustWait(pod)
    ensures r.admit ==> r == Admitted
    ensures !r.admit ==> r.reason == WaitForHostnameReason && r.message != ""
  {
    if pod.phase != Pending then Admitted
    else if pod.annotations.None? then Admitted
    else if WaitForHostnameAnnotation !in pod.annotations.value then Admitted
    else
      var value := pod.annotations.value[WaitForHostnameAnnotation];
      match ParseBool(value)
      case None => PodAdmitResult(false, WaitForHostnameReason, ParseErrorMessage(value))
      case Some(wait) =>
        if !wait then Admitted
        else if pod.hostname == "" then PodAdmitResult(false, WaitForHostnameReason, HostnameNotAvailableMessage)
        else Admitted
  }

  /** The phase check comes first: a pod that is not pending is admitted whatever it carries. */
  lemma NotPendingAdmitted(pod: Pod)
    requires pod.phase != Pending
    ensures Admit(pod) == Admitted
  {
  }

  /** A nil annotation map, or one without the wait key (the empty map included), admits. */
  lemma NoWaitAnnotationAdmitted(pod: Pod)
    requires WaitValue(pod) == None
    ensures Admit(pod) == Admitted
  {
  }

  /**
   * A pending pod whose wait annotation is not a boolean literal is rejected,
   * and the message gives back exactly the offending value.
   */
  lemma UnparseableRejected(pod: Pod, value: string)
    requires pod.phase == Pending && WaitValue(pod) == Some(value) && ParseBool(value) == None
    ensures Admit(pod) == PodAdmitResult(false, WaitForHostnameReason, ParseErrorMessage(value))
    ensures ValueInParseErrorMessage(Admit(pod).message) == Some(value)
  {
  }

  /** A wait annotation that reads as false admits, whatever the hostname. */
  lemma FalseAdmitted(pod: Pod, hostname: string)
    requires WaitValue(pod).Some? && ParseBool(WaitValue(pod).value) == Some(false)
    ensures Admit(pod.(hostname := hostname)) == Admitted
  {
  }

  /** A pending pod told to wait, whose hostname is still empty, is rejected. */
  lemma EmptyHostnameRejected(pod: Pod)
    requires pod.phase == Pending && pod.hostname == ""
    requires WaitValue(pod).Some? && ParseBool(WaitValue(pod).value) == Some(true)
    ensures Admit(pod) == PodAdmitResult(false, WaitForHostnameReason, HostnameNotAvailableMessage)
  {
  }

  /**
   * Filling in the hostname never revokes an admission, and it turns the
   * rejection for a missing hostname into an admission.
   */
  lemma HostnameMonotone(pod: Pod, hostname: string)
    requires hostname != ""
    requires Admit(pod).admit || Admit(pod).message == HostnameNotAvailableMessage
    ensures Admit(pod.(hostname := hostname)) == Admitted
  {
  }

  /** The decision depends on the annotations only through the wait key: nil and empty maps agree. */
  lemma NilAndEmptyAnnotationsAgree(pod: Pod)
    requires pod.annotations == None
    ensures Admit(pod) == Admit(pod.(annotations := Some(map[])))
  {
  }
}
