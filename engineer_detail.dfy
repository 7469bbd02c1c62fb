/** The engineer detail screen: it is built from the capacity response alone,
    with a placeholder engineer, and shows the rounded utilisation. */
module EngineerDetailScreen {
  import opened Basics
  import opened Entities
  import opened Rounding

  const LoadFailedText: string := "Failed to fetch engineer details"

  /** `Math.round((used / total) * 100)` when the total is positive, else 0. */
  function Utilization(c: EngineerCapacity): (u: int)
    ensures c.totalCapacity <= 0 ==> u == 0
    ensures c.totalCapacity > 0 ==>
              2 * c.totalCapacity * u - c.totalCapacity <= 200 * c.usedCapacity < 2 * c.totalCapacity * u + c.totalCapacity
  {
    if c.totalCapacity > 0 then RoundDiv(c.usedCapacity * 100, c.totalCapacity) else 0
  }

  /** A used capacity within the total gives a percentage in 0..100, with the
      two ends reached exactly at nothing used and everything used. */
  lemma UtilizationBounds(c: EngineerCapacity)
    requires 0 <= c.usedCapacity <= c.totalCapacity
    ensures 0 <= Utilization(c) <= 100
    ensures c.usedCapacity == 0 ==> Utilization(c) == 0
    ensures c.totalCapacity > 0 && c.usedCapacity == c.totalCapacity ==> Utilization(c) == 100
  {
    if c.totalCapacity > 0 {
      var n := c.totalCapacity;
      var s := c.usedCapacity * 100;
      MulMonotone(100, c.usedCapacity, n);
      AverageBounds(s, n, 0, 100);
      if c.usedCapacity == n {
        AverageOfConstant(100, n);
      }
      if c.usedCapacity == 0 {
        AverageOfConstant(0, n);
      }
    }
  }

  /** The engineer record the screen shows: only the id and the availability
      come from the capacity; the rest are fixed placeholders. */
  function Placeholder(c: EngineerCapacity): (e: Engineer)
    ensures e.id == c.engineerId && e.availability == c.availableCapacity
    ensures e.role == EngineerRole && e.skills == []
    ensures e.name == "Engineer Name" && e.email == "engineer@example.com"
    ensures e.seniority.None? && e.department.None?
  {
    Engineer(c.engineerId, "Engineer Name", "engineer@example.com", EngineerRole, None, None, [], c.availableCapacity)
  }

  /** What the screen holds. */
  datatype DetailState = DetailState(engineer: Option<Engineer>, capacity: Option<EngineerCapacity>,
                                     loading: bool, notices: seq<Notice>)

  const InitialState: DetailState := DetailState(None, None, true, [])

  /** The fetch effect. Without a route id nothing happens and the spinner
      stays. A response without a capacity record is stored as missing and
      then fails on reading its engineer id. */
  function Load(s: DetailState, routeId: Option<string>, response: Response<Option<EngineerCapacity>>): (r: DetailState)
    ensures routeId.None? || routeId.value == "" ==> r == s
    ensures routeId.Some? && routeId.value != "" ==> !r.loading
    ensures routeId.Some? && routeId.value != "" && response.Ok? && response.value.Some? ==>
              r == s.(capacity := response.value, engineer := Some(Placeholder(response.value.value)), loading := false)
    ensures routeId.Some? && routeId.value != "" && response.Ok? && response.value.None? ==>
              r == s.(capacity := None, loading := false, notices := s.notices + [ErrorNotice(LoadFailedText)])
    ensures routeId.Some? && routeId.value != "" && response.Failed? ==>
              r == s.(loading := false, notices := s.notices + [ErrorNotice(LoadFailedText)])
  {
    if routeId.None? || routeId.value == "" then s
    else match response
      case Failed(_) => s.(loading := false, notices := s.notices + [ErrorNotice(LoadFailedText)])
      case Ok(None) => s.(capacity := None, loading := false, notices := s.notices + [ErrorNotice(LoadFailedText)])
      case Ok(Some(c)) => s.(capacity := Some(c), engineer := Some(Placeholder(c)), loading := false)
  }

  datatype View = Spinner | NotFound | Details(engineer: Engineer, capacity: EngineerCapacity, utilization: int)

  function CurrentView(s: DetailState): (v: View)
    ensures s.loading ==> v == Spinner
    ensures v == NotFound <==> !s.loading && (s.engineer.None? || s.capacity.None?)
    ensures v.Details? ==> v.utilization == Utilization(v.capacity)
  {
    if s.loading then Spinner
    else if s.engineer.None? || s.capacity.None? then NotFound
    else Details(s.engineer.value, s.capacity.value, Utilization(s.capacity.value))
  }

  /** A first load shows the details exactly when it returned a capacity record,
      and then the shown engineer has the routed capacity's id. */
  lemma FirstLoadOutcome(routeId: string, response: Response<Option<EngineerCapacity>>)
    requires routeId != ""
    ensures var v := CurrentView(Load(InitialState, Some(routeId), response));
      (v.Details? <==> response.Ok? && response.value.Some?)
      && (v.Details? ==> v.engineer.id == v.capacity.engineerId)
  {
  }

  /** With no route id the screen never leaves the spinner. */
  lemma NoRouteIdKeepsSpinner(response: Response<Option<EngineerCapacity>>)
    ensures CurrentView(Load(InitialState, None, response)) == Spinner
  {
  }
}
