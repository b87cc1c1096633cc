/**
 * The API-server mutating admission plugin `HostnameSync`. On the creation of
 * a pod whose sync annotation is a true boolean, that has a subdomain and no
 * hostname yet, it copies `metadata.name` into `spec.hostname`, first
 * generating the name from `metadata.generateName` when it is still empty.
 * The pod is updated in place; the decision is specified by `SyncPod`.
 */
module HostnameSync {
  import opened Wrappers
  import opened Strconv

  /** The annotation that asks for the hostname to be synchronised with the name. */
  const Annotation := "pod.tess.io/hostname-sync"

  /** A group-qualified resource kind, as the request names it. */
  datatype GroupResource = GroupResource(group: string, resource: string)

  /** The core (empty group) `pods` resource. */
  const PodsResource := GroupResource("", "pods")

  /** An image pull policy: a field of the pod the plugin must never touch. */
  datatype PullPolicy = PullAlways | PullNever | PullIfNotPresent

  /** A snapshot of the pod fields the plugin reads or writes, plus one it must leave alone. */
  datatype PodFields = PodFields(
    name: string,
    generateName: string,
    annotations: Option<map<string, string>>,
    subdomain: string,
    hostname: string,
    imagePullPolicy: PullPolicy)

  /** A pod as the plugin sees it: an object whose fields are updated in place. */
  class Pod {
    var name: string
    var generateName: string
    var annotations: Option<map<string, string>>
    var subdomain: string
    var hostname: string
    var imagePullPolicy: PullPolicy

    /** The current value of the pod's fields. */
    function Fields(): PodFields
      reads this
    {
      PodFields(name, generateName, annotations, subdomain, hostname, imagePullPolicy)
    }

    constructor (f: PodFields)
      ensures Fields() == f
    {
      name, generateName, annotations := f.name, f.generateName, f.annotations;
      subdomain, hostname, imagePullPolicy := f.subdomain, f.hostname, f.imagePullPolicy;
    }
  }

  /** The object carried by an admission request: a pod, or an object of some other type. */
  datatype Object = PodObject(pod: Pod) | OtherObject

  /** The parts of an admission request the plugin reads. */
  datatype Attributes = Attributes(resource: GroupResource, subresource: string, obj: Object)

  /** The errors the plugin returns. */
  datatype AdmitError =
    | ConversionError       // the `pods` request did not carry a Pod
    | AnnotationParseError  // the sync annotation is not a boolean literal
    | MissingIdentityError  // neither a name nor a generateName to derive the hostname from

  /** The contract assumed of the name generator: the generated name extends the given prefix. */
  ghost predicate ExtendsPrefix(gen: string -> string)
  {
    forall base :: base <= gen(base)
  }

  /** True when the request is addressed to the pod resource itself, not a subresource or another kind. */
  predicate TargetsPodsResource(attributes: Attributes)
  {
    |attributes.subresource| == 0 && attributes.resource == PodsResource
  }

  /** The value of the sync annotation, `None` when the map is nil or lacks the key. */
  function SyncValue(p: PodFields): Option<string>
  {
    match p.annotations
    case None => None
    case Some(m) => if Annotation in m then Some(m[Annotation]) else None
  }

  /** The pod has a subdomain but no hostname yet: the only case in which the plugin looks further. */
  predicate WantsHostname(p: PodFields)
  {
    p.subdomain != "" && p.hostname == ""
  }

  /** All fields other than name and hostname agree: the plugin writes only those two. */
  predicate SameOtherFields(p: PodFields, q: PodFields)
  {
    p.generateName == q.generateName && p.annotations == q.annotations &&
    p.subdomain == q.subdomain && p.imagePullPolicy == q.imagePullPolicy
  }

  /**
   * The effect of the plugin on a pod it handles: the guard chain on subdomain,
   * hostname and the sync annotation, then name generation and the hostname
   * assignment. A failure leaves the pod as it was.
   */
  function SyncPod(p: PodFields, gen: string -> string): (r: Result<PodFields, AdmitError>)
    requires ExtendsPrefix(gen)
    ensures r == Failure(AnnotationParseError) <==>
      WantsHostname(p) && SyncValue(p).Some? && SyncValue(p).value !in TrueLiterals + FalseLiterals
    ensures r == Failure(MissingIdentityError) <==>
      WantsHostname(p) && SyncValue(p).Some? && SyncValue(p).value in TrueLiterals && p.name == "" && p.generateName == ""
    ensures r.Failure? ==> r.error != ConversionError
    ensures r == Success(p) <==>
      !WantsHostname(p) || SyncValue(p).None? || SyncValue(p).value in FalseLiterals
    ensures r.Success? ==> SameOtherFields(p, r.value)
    ensures r.Success? ==> r.value.hostname == p.hostname || (p.hostname == "" && r.value.hostname == r.value.name != "")
    ensures r.Success? ==> r.value.name == p.name || (p.name == "" && p.generateName != "" && p.generateName <= r.value.name)
    ensures r.Success? && r.value.name != p.name ==> r.value.hostname == r.value.name
  {
    if p.subdomain == "" || p.hostname != "" then Success(p)
    else match SyncValue(p)
      case None => Success(p)
      case Some(value) =>
        match ParseBool(value)
        case None => Failure(AnnotationParseError)
        case Some(sync) =>
          if !sync then Success(p)
          else if |p.name| == 0 then
            if |p.generateName| == 0 then Failure(MissingIdentityError)
            else
              var name := gen(p.generateName);
              Success(p.(name := name, hostname := name))
          else Success(p.(hostname := p.name))
  }

  /**
   * `hostnameSync.Admit`: ignores subresources and other resources, rejects a
   * `pods` request that does not carry a Pod, and otherwise applies `SyncPod`
   * to the pod in place.
   */
  method Admit(attributes: Attributes, gen: string -> string) returns (err: Option<AdmitError>)
    requires ExtendsPrefix(gen)
    modifies if attributes.obj.PodObject? then {attributes.obj.pod} else {}
    ensures !TargetsPodsResource(attributes) ==> err == None
    ensures !TargetsPodsResource(attributes) && attributes.obj.PodObject? ==> unchanged(attributes.obj.pod)
    ensures TargetsPodsResource(attributes) && attributes.obj.OtherObject? ==> err == Some(ConversionError)
    ensures TargetsPodsResource(attributes) && attributes.obj.PodObject? ==>
      var pod := attributes.obj.pod;
      match SyncPod(old(pod.Fields()), gen)
      case Success(q) => err == None && pod.Fields() == q
      case Failure(e) => err == Some(e) && pod.Fields() == old(pod.Fields())
  {
    if |attributes.subresource| != 0 || attributes.resource != PodsResource {
      return None;
    }
    if attributes.obj.OtherObject? {
      return Some(ConversionError);
    }
    var pod := attributes.obj.pod;
    if pod.subdomain == "" || pod.hostname != "" {
      return None;
    }
    var ann := pod.annotations;
    if ann.None? {
      return None;
    }
    if Annotation !in ann.value {
      return None;
    }
    var b := ParseBool(ann.value[Annotation]);
    if b.None? {
      return Some(AnnotationParseError);
    }
    if !b.value {
      return None;
    }
    var name := pod.name;
    if |name| == 0 {
      var generateName := pod.generateName;
      if |generateName| == 0 {
        return Some(MissingIdentityError);
      }
      name := gen(generateName);
      pod.name := name;
    }
    pod.hostname := name;
    return None;
  }

  /** A pod without a subdomain, or with a hostname already, is left alone, whatever its annotation says. */
  lemma NoSubdomainOrHostnameSetIsNoOp(p: PodFields, gen: string -> string)
    requires ExtendsPrefix(gen)
    requires p.subdomain == "" || p.hostname != ""
    ensures SyncPod(p, gen) == Success(p)
  {
  }

  /** A nil annotation map, a missing sync key, or a sync value that reads as false leaves the pod alone. */
  lemma NotRequestedIsNoOp(p: PodFields, gen: string -> string)
    requires ExtendsPrefix(gen)
    requires SyncValue(p).None? || ParseBool(SyncValue(p).value) == Some(false)
    ensures SyncPod(p, gen) == Success(p)
  {
  }

  /** A sync value that is not a boolean literal is an error, once subdomain and hostname call for work. */
  lemma GarbageAnnotationIsError(p: PodFields, gen: string -> string)
    requires ExtendsPrefix(gen)
    requires p.subdomain != "" && p.hostname == ""
    requires SyncValue(p).Some? && ParseBool(SyncValue(p).value).None?
    ensures SyncPod(p, gen) == Failure(AnnotationParseError)
  {
  }

  /** With a name, a requested sync copies it into the hostname and changes nothing else. */
  lemma SyncFromName(p: PodFields, gen: string -> string)
    requires ExtendsPrefix(gen)
    requires p.subdomain != "" && p.hostname == ""
    requires SyncValue(p).Some? && ParseBool(SyncValue(p).value) == Some(true)
    requires p.name != ""
    ensures SyncPod(p, gen) == Success(p.(hostname := p.name))
  {
  }

  /** Without a name, the name is generated from generateName and the hostname follows it. */
  lemma SyncFromGenerateName(p: PodFields, gen: string -> string)
    requires ExtendsPrefix(gen)
    requires p.subdomain != "" && p.hostname == ""
    requires SyncValue(p).Some? && ParseBool(SyncValue(p).value) == Some(true)
    requires p.name == "" && p.generateName != ""
    ensures SyncPod(p, gen).Success?
    ensures var q := SyncPod(p, gen).value;
      q.name == q.hostname && p.generateName <= q.name && q == p.(name := gen(p.generateName), hostname := gen(p.generateName))
  {
  }

  /** Neither a name nor a generateName: nothing to derive the hostname from. */
  lemma MissingIdentityIsError(p: PodFields, gen: string -> string)
    requires ExtendsPrefix(gen)
    requires p.subdomain != "" && p.hostname == ""
    requires SyncValue(p).Some? && ParseBool(SyncValue(p).value) == Some(true)
    requires p.name == "" && p.generateName == ""
    ensures SyncPod(p, gen) == Failure(MissingIdentityError)
  {
  }

  /** Running the plugin on a pod it has already processed changes nothing more. */
  lemma SyncIdempotent(p: PodFields, gen: string -> string)
    requires ExtendsPrefix(gen)
    requires SyncPod(p, gen).Success?
    ensures SyncPod(SyncPod(p, gen).value, gen) == SyncPod(p, gen)
  {
  }

  /** A generator that appends a fixed suffix, standing in for the registry's random one. */
  function SuffixGenerator(suffix: string): (gen: string -> string)
    ensures ExtendsPrefix(gen)
  {
    base => base + suffix
  }

  /** A named pod with a subdomain and a true sync annotation gets its name as hostname. */
  method UseNameScenario()
  {
    var pod := new Pod(PodFields("abc", "", Some(map[Annotation := "true"]), "sub", "", PullIfNotPresent));
    var err := Admit(Attributes(PodsResource, "", PodObject(pod)), SuffixGenerator("x1b2c"));
    assert err == None && pod.name == "abc" && pod.hostname == "abc";
  }

  /** A pod with only a generateName gets a generated name, and the hostname follows it. */
  method UseGenerateNameScenario(gen: string -> string)
    requires ExtendsPrefix(gen)
  {
    var pod := new Pod(PodFields("", "abc-", Some(map[Annotation := "true"]), "sub", "", PullIfNotPresent));
    var err := Admit(Attributes(PodsResource, "", PodObject(pod)), gen);
    assert err == None && "abc-" <= pod.name && pod.hostname == pod.name;
  }

  /** Subresources and other resources leave the pod untouched; a `pods` request without a Pod is an error. */
  method OtherResourcesScenario(gen: string -> string)
    requires ExtendsPrefix(gen)
  {
    var pod := new Pod(PodFields("testname", "", None, "", "", PullNever));
    var err := Admit(Attributes(GroupResource("", "foos"), "", PodObject(pod)), gen);
    assert err == None && pod.imagePullPolicy == PullNever;
    err := Admit(Attributes(PodsResource, "exec", PodObject(pod)), gen);
    assert err == None && pod.imagePullPolicy == PullNever;
    err := Admit(Attributes(PodsResource, "", OtherObject), gen);
    assert err == Some(ConversionError);
  }
}
