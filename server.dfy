/**
 * A managed server as listed (src/server.rs): the container's id and state
 * together with the parameters decoded from its labels. Two servers are the
 * same server when their ids agree; servers are ordered by name.
 */
module Servers {
  import opened Wrappers
  import opened Orderings
  import opened Labels
  import opened Engine
  import opened Params

  datatype Server = Server(id: string, state: string, parameters: Parameters)

  /** `PartialEq`: the id alone decides. */
  predicate SameServer(a: Server, b: Server) { a.id == b.id }

  /** `Ord` and `PartialOrd`: the parameters' name alone decides. */
  function CompareServers(a: Server, b: Server): Ordering
  {
    CompareNames(a.parameters.name, b.parameters.name)
  }

  /** The ordering is a total preorder, so sorting servers puts their names in non-decreasing order. */
  lemma ServerOrderTotalPreorder(a: Server, b: Server, c: Server)
    ensures CompareServers(a, a) == Equal
    ensures CompareServers(b, a) == CompareServers(a, b).Reverse()
    ensures CompareServers(a, b) != Greater && CompareServers(b, c) != Greater ==> CompareServers(a, c) != Greater
    ensures CompareServers(a, b) == Equal <==> a.parameters.name == b.parameters.name
  {
    NameOrderTotal(a.parameters.name, a.parameters.name, a.parameters.name);
    NameOrderTotal(a.parameters.name, b.parameters.name, c.parameters.name);
  }

  /**
   * Equality and ordering look at different fields: two records of one
   * container can compare unequal, and two different containers can compare
   * equal.
   */
  lemma EqualityIgnoresOrdering(p: Parameters, q: Parameters)
    requires p.name != q.name
    ensures SameServer(Server("c", "running", p), Server("c", "running", q))
    ensures CompareServers(Server("c", "running", p), Server("c", "running", q)) != Equal
    ensures !SameServer(Server("c", "running", p), Server("d", "running", p))
    ensures CompareServers(Server("c", "running", p), Server("d", "running", p)) == Equal
  {
    NameOrderTotal(p.name, q.name, q.name);
    NameOrderTotal(p.name, p.name, p.name);
  }

  /** The parameters label of a summary, when the summary has labels and that label. */
  function ParametersLabel(summary: ContainerSummary): Option<string>
  {
    if summary.labels.Some? && LABEL_KEY_PARAMETERS in summary.labels.value
    then Some(summary.labels.value[LABEL_KEY_PARAMETERS]) else None
  }

  /**
   * `Server::try_from(summary)`: fails when the id, the state, the labels or
   * the parameters label is missing, or when that label does not decode;
   * otherwise copies the id and state and keeps the decoded parameters.
   */
  function TryFromSummary(summary: ContainerSummary): (r: Result<Server, ()>)
    ensures summary.id.None? || summary.state.None? || summary.labels.None? ==> r.Failure?
    ensures r.Success? <==> summary.id.Some? && summary.state.Some? && ParametersLabel(summary).Some?
                             && DecodeLabel(ParametersLabel(summary).value).Some?
    ensures r.Success? ==> r.value.id == summary.id.value && r.value.state == summary.state.value
                           && Some(r.value.parameters) == DecodeLabel(ParametersLabel(summary).value)
  {
    if summary.id.None? then Failure(())
    else if summary.state.None? then Failure(())
    else match ParametersLabel(summary)
      case None => Failure(())
      case Some(value) =>
        match DecodeLabel(value)
        case None => Failure(())
        case Some(parameters) => Success(Server(summary.id.value, summary.state.value, parameters))
  }

  /** A summary yields a server exactly when it has an id and a state and its labels yield parameters. */
  lemma TryFromSummaryAgreesWithLabels(summary: ContainerSummary)
    requires summary.labels.Some?
    ensures TryFromSummary(summary).Success? <==>
      summary.id.Some? && summary.state.Some? && TryFromLabels(summary.labels.value).Success?
    ensures TryFromSummary(summary).Success? ==>
      TryFromLabels(summary.labels.value) == Success(TryFromSummary(summary).value.parameters)
  {
  }

  /** The servers a list of summaries yields, in order (`filter_map(|s| Server::try_from(s).ok())`). */
  function ServersOf(summaries: seq<ContainerSummary>): (servers: seq<Server>)
    ensures |servers| <= |summaries|
  {
    if summaries == [] then []
    else
      var rest := ServersOf(summaries[1..]);
      match TryFromSummary(summaries[0])
      case Success(s) => [s] + rest
      case Failure(_) => rest
  }

  /** A server is listed exactly when some summary yields it. */
  lemma {:induction false} ServersOfMembers(summaries: seq<ContainerSummary>, s: Server)
    ensures s in ServersOf(summaries) <==> exists i :: 0 <= i < |summaries| && TryFromSummary(summaries[i]) == Success(s)
  {
    if summaries != [] {
      ServersOfMembers(summaries[1..], s);
      if exists i :: 0 <= i < |summaries| && TryFromSummary(summaries[i]) == Success(s) {
        var i :| 0 <= i < |summaries| && TryFromSummary(summaries[i]) == Success(s);
        if i > 0 {
          assert summaries[1..][i - 1] == summaries[i];
        }
      }
      if exists i :: 0 <= i < |summaries| - 1 && TryFromSummary(summaries[1..][i]) == Success(s) {
        var i :| 0 <= i < |summaries| - 1 && TryFromSummary(summaries[1..][i]) == Success(s);
        assert summaries[i + 1] == summaries[1..][i];
      }
    }
  }
}
