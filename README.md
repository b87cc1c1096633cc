# Hostname sync and wait-for-hostname admission, in Dafny

This project models two small pod-admission hooks of a Kubernetes fork. Both
are driven by annotations:

- **HostnameSync** is a mutating admission plugin in the API server
  (`hostnamesync.dfy`). It acts when a pod is created with the annotation
  `pod.tess.io/hostname-sync` set to a true boolean, a subdomain and no
  hostname. It then copies `metadata.name` into `spec.hostname`. If the name
  is still empty, it first generates one from `metadata.generateName`. The
  pod is a `class` whose `name` and `hostname` fields the `Admit` method
  updates in place. `Admit` is proved against `SyncPod`, a function over a
  snapshot of the pod's fields. `SyncPod`'s contract gives the exact
  conditions for each outcome: an error, no change, or a hostname write.
- **WaitForHostname** is a kubelet pod-admit handler
  (`waitforhostname.dfy`). It holds a pending pod back while the annotation
  `naming.tess.io/wait-for-hostname` reads as true and `spec.hostname` is
  still empty. It also holds the pod back when that annotation is not a
  boolean. Every rejection carries the reason `WaitForHostname`. The handler
  is a pure function of the phase, the annotations and the hostname. Its
  contract states that it rejects exactly when the declarative predicate
  `MustWait` holds.
- **Strconv** (`strconv.dfy`) models the parts of Go's `strconv` package that
  both hooks use:
  - `ParseBool`, which accepts exactly the six true and six false
    spellings.
  - `Quote`, which renders a string as a double-quoted literal.
    `ParseBool`'s syntax error quotes the rejected value this way. The
    kubelet handler prints that error with `%v` in its rejection message.
    (Its own `%q` quotes only the annotation key.)
  - `Unquote`, the inverse of `Quote`.

  The main proof in the project is by induction. It shows that `Unquote`
  gives back any string that `Quote` rendered. From that, the rejection
  message for an unparseable annotation gives back the offending value
  exactly.
- **Pipeline** (`pipeline.dfy`) connects the two hooks. Once the plugin has
  written a hostname, the kubelet handler no longer rejects the pod for a
  missing one.

The name generator of the pod registry is a collaborator whose code is not
part of this model. It is passed in as a function `gen`. The only thing
assumed about it is `ExtendsPrefix(gen)`: the generated name starts with the
given `generateName`. No requirement is placed on the pod itself. Every input
the Go code handles, including nil annotations, garbage values and missing
names, leads to a modelled outcome.

## Model

| member | source | states |
|---|---|---|
| `HostnameSync.Admit` | plugin/pkg/admission/hostnamesync/admission.go:48-106 | Requests for a subresource or a resource other than core `pods` return no error and leave the pod completely unchanged, including its image pull policy. A `pods` request without a Pod returns a conversion error. Otherwise the pod ends up as `SyncPod` describes. On an error, every field keeps its old value. |
| `HostnameSync.SyncPod` | plugin/pkg/admission/hostnamesync/admission.go:63-105 | Returns a parse error exactly when the pod has a subdomain, has no hostname and carries a sync value that is not a boolean literal. Returns a missing-identity error exactly when that value is a true literal and both name and generateName are empty. Leaves the pod unchanged exactly when it has no subdomain, already has a hostname, or has the sync key absent or false. On success, only name and hostname can change. A changed hostname equals the final name and is non-empty. A changed name was empty and starts with generateName. |
| `HostnameSync.NoSubdomainOrHostnameSetIsNoOp` | plugin/pkg/admission/hostnamesync/admission.go:63-68 | With no subdomain, or with a hostname already set, the call succeeds and leaves the pod unchanged. This check comes before any annotation parsing. |
| `HostnameSync.NotRequestedIsNoOp` | plugin/pkg/admission/hostnamesync/admission.go:70-89 | A nil annotation map, a missing sync key, or a sync value that reads as false gives success with the pod unchanged, so the hostname stays empty. |
| `HostnameSync.GarbageAnnotationIsError` | plugin/pkg/admission/hostnamesync/admission.go:81-84 | When the pod has a subdomain and no hostname, a sync value that is not a boolean literal gives the parse error. |
| `HostnameSync.SyncFromName` | plugin/pkg/admission/hostnamesync/admission.go:91-103 | With a true sync value and a non-empty name, the hostname becomes the name and nothing else changes. |
| `HostnameSync.SyncFromGenerateName` | plugin/pkg/admission/hostnamesync/admission.go:92-103 | With an empty name and a non-empty generateName, the name becomes the generated name and the hostname equals it. The generated name starts with generateName. |
| `HostnameSync.MissingIdentityIsError` | plugin/pkg/admission/hostnamesync/admission.go:92-97 | With an empty name and an empty generateName, the call fails with the missing-identity error. |
| `HostnameSync.SyncIdempotent` | plugin/pkg/admission/hostnamesync/admission.go:17-18 | After a successful run, running the plugin again on its output changes nothing. Once the plugin has written a hostname, the pod is a fixpoint. |
| `WaitForHostname.Admit` | pkg/kubelet/lifecycle/ebay/ebay.go:23-69 | Admits exactly when `MustWait` is false. `MustWait` holds when the pod is pending, carries the wait key, and the value is either not a false literal and not a true literal, or a true literal while the hostname is empty. Every admission has an empty reason and message. Every rejection has the reason `WaitForHostname` and a non-empty message. |
| `WaitForHostname.NotPendingAdmitted` | pkg/kubelet/lifecycle/ebay/ebay.go:26-29 | A pod that is not pending is admitted, whatever its annotations or hostname. |
| `WaitForHostname.NoWaitAnnotationAdmitted` | pkg/kubelet/lifecycle/ebay/ebay.go:32-42 | A nil annotation map, or a map without the wait key (including an empty map), is admitted. |
| `WaitForHostname.UnparseableRejected` | pkg/kubelet/lifecycle/ebay/ebay.go:44-50 | A pending pod whose wait value is not a boolean literal is rejected with reason `WaitForHostname`. The value can be read back from the message. |
| `WaitForHostname.FalseAdmitted` | pkg/kubelet/lifecycle/ebay/ebay.go:51-54 | A wait value that reads as false is admitted, whatever the hostname. |
| `WaitForHostname.EmptyHostnameRejected` | pkg/kubelet/lifecycle/ebay/ebay.go:56-64 | A pending pod with a true wait value and an empty hostname is rejected with reason `WaitForHostname` and the "not available yet" message. |
| `WaitForHostname.HostnameMonotone` | pkg/kubelet/lifecycle/ebay/ebay.go:56-68 | Setting any non-empty hostname never turns an admission into a rejection. It also turns the missing-hostname rejection into an admission. |
| `WaitForHostname.ParseErrorMessage` | pkg/kubelet/lifecycle/ebay/ebay.go:49 | The message names the annotation key and embeds `ParseBool`'s syntax error for the value. The offending value can be read back from the message exactly, so distinct values give distinct messages. |
| `WaitForHostname.NilAndEmptyAnnotationsAgree` | pkg/kubelet/lifecycle/ebay/ebay.go:32-42 | A nil annotation map and an empty one lead to the same decision. |
| `Strconv.ParseBool` | plugin/pkg/admission/hostnamesync/admission.go:81-84 | Returns true exactly for `1 t T TRUE true True` and false exactly for `0 f F FALSE false False`. Every other string is a syntax error. |
| `Strconv.GarbageIsSyntaxError` | plugin/pkg/admission/hostnamesync/admission_test.go:120-133 | The plugin's test value `"not true"` is a syntax error. So are the kubelet handler's test value `"not-a-bool"` (ebay_test.go:49) and the empty string. |
| `Strconv.UnquoteBodyQuoteBody` | pkg/kubelet/lifecycle/ebay/ebay.go:49 | Decoding the escaped text of any string gives back that string. The proof is by induction on the string. |
| `Strconv.Quote` | pkg/kubelet/lifecycle/ebay/ebay.go:49 | The quoted rendering of any string `s` unquotes back to `s`: `Unquote(Quote(s)) == Some(s)`. This is the quoting that `ParseBool`'s error applies to the value. |
| `Strconv.Unquote` | pkg/kubelet/lifecycle/ebay/ebay.go:49 | Accepts only text enclosed in double quotes with no raw newline inside, as Go requires. The decoded string is at least two characters shorter than that text. |
| `Pipeline.SyncedPodNotHeldForHostname` | pkg/kubelet/lifecycle/ebay/ebay.go:56-68 | After the plugin has written a hostname, the kubelet handler admits the stored pod in any phase, unless the wait annotation is unparseable. |

## Left out

- Logging through `glog` in the kubelet handler has no effect on the decision.
- Plugin registration (`init`, `admission.RegisterPlugin`), `NewHostnameSync`, `NewWaitForHostnameAdmitHandler` and the embedded `admission.Handler` are left out. They are wiring into the orchestrator. `HostnameSync.Admit` models only the create requests that this filter lets through; the operation kind, namespace and kind of the request are not modelled.
- The `meta.Accessor` failure path is left out. It cannot fail for a Pod, so the model reads the pod's fields directly.
- The pod registry's name generator is not part of this model. It is a parameter that is assumed only to return a name starting with the given prefix. Its randomness, its uniqueness and any length limit it applies are not modelled.
- HostnameSync.SyncPod: the clause "a changed name starts with generateName" (and `SyncFromGenerateName`'s prefix clause) holds only under `ExtendsPrefix`. A generator that first shortens a long prefix (upstream cuts it to 58 bytes) breaks this for long generateNames. There the stored name starts only with a truncated prefix. The hostname still equals the name.
- The plugin's error texts are modelled as three error variants, not strings. These are the bad-request conversion error and the two `fmt.Errorf` errors.
- `Strconv.Quote` escapes `"`, `\`, the seven one-letter control escapes and other ASCII control characters (as `\xhh`). It does not model Go's `\u`/`\U` escapes for non-printable non-ASCII characters, or its handling of invalid UTF-8. Those characters are copied unchanged.
- `Strconv.Unquote` decodes the escapes `\"`, `\\`, the seven one-letter escapes and every `\xhh` with lower-case hex digits. A `\xhh` decodes to the character with that code, where Go yields a raw byte at 0x80 and above. Upper-case hex digits are rejected, where Go accepts them. Go's octal, `\u`, `\U`, raw-string and single-quote forms are not modelled. The contract does not state that an unescaped quote inside is rejected; only the decoder does that.
- The rest of the Kubernetes pod and request structure is reduced to the fields each hook reads or writes. This covers runtime objects, group versions and type conversion. The image pull policy stands for all the fields the plugin must leave untouched.
