/**
 * How the two hooks meet: the API-server plugin fills in `spec.hostname` at
 * creation, and the kubelet handler later waits for exactly that field.
 */
module Pipeline {
  import opened Wrappers
  import opened Strconv
  import HostnameSync
  import WaitForHostname

  /** The kubelet's view of a pod the API server stored, in the given phase. */
  function KubeletView(p: HostnameSync.PodFields, phase: WaitForHostname.PodPhase): WaitForHostname.Pod
  {
    WaitForHostname.Pod(phase, p.annotations, p.hostname)
  }

  /**
   * Once the plugin has written a hostname, the kubelet handler no longer
   * holds the pod back for a missing one: only an unparseable wait annotation
   * can still stop it.
   */
  lemma SyncedPodNotHeldForHostname(p: HostnameSync.PodFields, gen: string -> string, phase: WaitForHostname.PodPhase)
    requires HostnameSync.ExtendsPrefix(gen)
    requires HostnameSync.SyncPod(p, gen).Success? && HostnameSync.SyncPod(p, gen).value.hostname != p.hostname
    ensures var view := KubeletView(HostnameSync.SyncPod(p, gen).value, phase);
      WaitForHostname.Admit(view).admit ||
      (WaitForHostname.WaitValue(view).Some? && ParseBool(WaitForHostname.WaitValue(view).value) == None)
  {
  }
}
