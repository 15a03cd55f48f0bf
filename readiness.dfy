/**
 * The refresh classifiers of the readiness and deletion waits: pure
 * decisions on the outcome of one Get. A result that is not `found`
 * stands for the nil object the wait counts as "not found".
 */
module Readiness {
  import opened Wrappers
  import opened Objects
  import opened Foreign
  import opened Cluster

  /** Why a refresh failed: the Get, or the status viewer or status decoder. */
  datatype Fault = ApiFault(api: ApiError) | StatusFault(message: string)

  datatype RefreshResult = RefreshResult(found: bool, state: string, fault: Option<Fault>)

  const Pending: string := "pending"
  const Ready: string := "ready"
  const ErrorState: string := "error"
  const Deleting: string := "deleting"
  const Deleted: string := "deleted"

  const HealthyPhases: set<string> := {"Active", "Bound", "Running", "Ready", "Online", "Healthy"}

  function Found(state: string): RefreshResult {
    RefreshResult(true, state, None)
  }

  /** Ready when the status block lists any load balancer at all. */
  function IngressVerdict(lb: map<string, Json>): RefreshResult {
    Found(if |lb| > 0 then Ready else Pending)
  }

  /**
   * A load-balancer status block. For a v1 Service it counts only when the
   * spec's type is "LoadBalancer"; a Service without a spec map or a type
   * gives "error" with no result and no error value.
   */
  function LoadBalancerVerdict(o: Unstructured, lb: map<string, Json>): RefreshResult {
    if o.apiVersion == "v1" && o.kind == "Service" then
      if o.spec.None? || !o.spec.value.Object? || "type" !in o.spec.value.fields then
        RefreshResult(false, ErrorState, None)
      else if o.spec.value.fields["type"] == Str("LoadBalancer") then IngressVerdict(lb)
      else Found(Ready)
    else IngressVerdict(lb)
  }

  /** The readiness refresh: a Get, then the status viewer, then readyReplicas, phase and load balancer in turn. */
  function ReadyRefresh(lib: Library, got: Reply): (r: RefreshResult)
    ensures r.state == Pending || r.state == Ready || r.state == ErrorState
    ensures r.found <==> r.state != ErrorState
    ensures r.fault.Some? ==> !r.found
    ensures got.Failure? ==> r.fault == Some(ApiFault(got.error))
    ensures r.fault.Some? && r.fault.value.ApiFault? ==> got.Failure?
  {
    match got
    case Failure(e) => RefreshResult(false, ErrorState, Some(ApiFault(e)))
    case Success(o) =>
      if o.status.None? then Found(Ready)
      else if lib.hasViewer(GroupKindOf(o)) then
        match lib.viewerStatus(o)
        case Failure(e) => RefreshResult(false, ErrorState, Some(StatusFault(e)))
        case Success(ready) => Found(if ready then Ready else Pending)
      else
        match lib.decodeStatus(o.status.value)
        case Failure(e) => RefreshResult(false, ErrorState, Some(StatusFault(e)))
        case Success(st) =>
          if st.readyReplicas.Some? then Found(if st.readyReplicas.value > 0 then Ready else Pending)
          else if st.phase.Some? then Found(if st.phase.value in HealthyPhases then Ready else Pending)
          else if st.loadBalancer.Some? then LoadBalancerVerdict(o, st.loadBalancer.value)
          else Found(Ready)
  }

  /** The deletion refresh: gone once the Get says not found. */
  function DeleteRefresh(got: Reply): (r: RefreshResult)
    ensures r.state == Deleting || r.state == Deleted || r.state == ErrorState
    ensures r.state == Deleted <==> got == Failure(NotFound)
    ensures r.state == Deleting <==> got.Success?
    ensures r.fault.Some? <==> r.state == ErrorState
  {
    match got
    case Failure(NotFound) => Found(Deleted)
    case Failure(e) => RefreshResult(false, ErrorState, Some(ApiFault(e)))
    case Success(_) => Found(Deleting)
  }

  /** An object without a status block is ready. */
  lemma NoStatusIsReady(lib: Library, o: Unstructured)
    requires o.status.None?
    ensures ReadyRefresh(lib, Success(o)) == Found(Ready)
  {
  }

  /**
   * With a status viewer for the object's kind, the viewer decides before
   * anything else: its error fails the refresh, otherwise the object is
   * ready iff the viewer says so. The status decoder is never consulted, so
   * readyReplicas, phase and load balancer do not matter.
   */
  lemma ViewerDecides(lib: Library, o: Unstructured, decodeStatus: Json -> Result<StatusFields, string>)
    requires o.status.Some? && lib.hasViewer(GroupKindOf(o))
    ensures lib.viewerStatus(o).Failure? ==>
      ReadyRefresh(lib, Success(o)) == RefreshResult(false, ErrorState, Some(StatusFault(lib.viewerStatus(o).error)))
    ensures lib.viewerStatus(o).Success? ==>
      ReadyRefresh(lib, Success(o)) == Found(if lib.viewerStatus(o).value then Ready else Pending)
    ensures ReadyRefresh(lib.(decodeStatus := decodeStatus), Success(o)) == ReadyRefresh(lib, Success(o))
  {
  }

  /** A decoded readyReplicas decides alone: ready iff it is positive; phase and load balancer are not read. */
  /** A status the decoder cannot read is an error state carrying the decoder's error. */
  lemma DecodeFailureFails(lib: Library, o: Unstructured, e: string)
    requires o.status.Some? && !lib.hasViewer(GroupKindOf(o))
    requires lib.decodeStatus(o.status.value) == Failure(e)
    ensures ReadyRefresh(lib, Success(o)) == RefreshResult(false, ErrorState, Some(StatusFault(e)))
  {
  }

  /** A status with none of readyReplicas, phase and loadBalancer falls through to ready. */
  lemma UnrecognisedStatusIsReady(lib: Library, o: Unstructured)
    requires o.status.Some? && !lib.hasViewer(GroupKindOf(o))
    requires lib.decodeStatus(o.status.value) == Success(StatusFields(None, None, None))
    ensures ReadyRefresh(lib, Success(o)) == Found(Ready)
  {
  }

  lemma ReadyReplicasDecide(lib: Library, o: Unstructured, st: StatusFields)
    requires o.status.Some? && !lib.hasViewer(GroupKindOf(o))
    requires lib.decodeStatus(o.status.value) == Success(st) && st.readyReplicas.Some?
    ensures ReadyRefresh(lib, Success(o)) == Found(if st.readyReplicas.value > 0 then Ready else Pending)
  {
  }

  /** Without readyReplicas, a phase decides: ready iff it is one of the healthy phases, pending otherwise. */
  lemma PhaseDecides(lib: Library, o: Unstructured, st: StatusFields)
    requires o.status.Some? && !lib.hasViewer(GroupKindOf(o))
    requires lib.decodeStatus(o.status.value) == Success(st) && st.readyReplicas.None? && st.phase.Some?
    ensures ReadyRefresh(lib, Success(o)).found
    ensures ReadyRefresh(lib, Success(o)).state == Ready <==> st.phase.value in HealthyPhases
  {
  }

  /**
   * For a v1 Service whose only status is a load balancer: with type
   * "LoadBalancer" it waits for a non-empty block, with any other type it
   * is ready, and without a spec map or type it is neither found nor failed.
   */
  lemma ServiceLoadBalancer(lib: Library, o: Unstructured, st: StatusFields)
    requires o.status.Some? && !lib.hasViewer(GroupKindOf(o))
    requires lib.decodeStatus(o.status.value) == Success(st)
    requires st.readyReplicas.None? && st.phase.None? && st.loadBalancer.Some?
    requires o.apiVersion == "v1" && o.kind == "Service"
    ensures var r := ReadyRefresh(lib, Success(o));
      if o.spec.None? || !o.spec.value.Object? || "type" !in o.spec.value.fields then
        !r.found && r.fault.None?
      else if o.spec.value.fields["type"] == Str("LoadBalancer") then
        r.found && (r.state == Ready <==> |st.loadBalancer.value| > 0)
      else r == Found(Ready)
  {
  }

  /** Any other kind with a load-balancer status is ready iff the block is not empty. */
  lemma OtherLoadBalancer(lib: Library, o: Unstructured, st: StatusFields)
    requires o.status.Some? && !lib.hasViewer(GroupKindOf(o))
    requires lib.decodeStatus(o.status.value) == Success(st)
    requires st.readyReplicas.None? && st.phase.None? && st.loadBalancer.Some?
    requires !(o.apiVersion == "v1" && o.kind == "Service")
    ensures ReadyRefresh(lib, Success(o)) == Found(if |st.loadBalancer.value| > 0 then Ready else Pending)
  {
  }
}
