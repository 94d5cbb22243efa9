/**
 * The records the agents read from their static mock data, and the two
 * lookups by key. An unknown key yields `NotFound`: the agents answer with an
 * error value, never by failing.
 */
module Records {

  datatype PullRequest = PullRequest(
    number: int,
    title: string,
    author: string,
    description: string,
    filesChanged: seq<string>,
    additions: int,
    deletions: int,
    labels: seq<string>,
    createdAt: string)

  datatype Issue = Issue(
    number: int,
    title: string,
    author: string,
    labels: seq<string>,
    status: string,
    createdAt: string)

  datatype Incident = Incident(
    title: string,
    severity: string,
    status: string,
    affectedServices: seq<string>,
    symptoms: string,
    impact: string,
    createdAt: string)

  datatype Lookup<T> = Found(value: T) | NotFound

  /** The first pull request in `prs` whose number is `number`. */
  function FindPr(prs: seq<PullRequest>, number: int): (r: Lookup<PullRequest>)
    ensures r.NotFound? <==> forall i :: 0 <= i < |prs| ==> prs[i].number != number
    ensures r.Found? ==>
      exists i :: 0 <= i < |prs| && prs[i] == r.value && r.value.number == number &&
        forall j :: 0 <= j < i ==> prs[j].number != number
    decreases |prs|
  {
    if prs == [] then NotFound
    else if prs[0].number == number then Found(prs[0])
    else
      var r := FindPr(prs[1..], number);
      if r.Found? then
        var i :| 0 <= i < |prs[1..]| && prs[1..][i] == r.value && r.value.number == number &&
          forall j :: 0 <= j < i ==> prs[1..][j].number != number;
        assert prs[i + 1] == r.value;
        assert forall j :: 0 <= j < i + 1 ==> prs[j].number != number by {
          forall j | 0 <= j < i + 1 ensures prs[j].number != number {
            if j > 0 {
              assert prs[j] == prs[1..][j - 1];
            }
          }
        }
        r
      else
        r
  }

  /** The keys of a JSON object are distinct. */
  predicate DistinctIds(entries: seq<(string, Incident)>)
  {
    forall i, j :: 0 <= i < j < |entries| ==> entries[i].0 != entries[j].0
  }

  /** The incidents object: `(id, record)` entries in document order. */
  type IncidentTable = t: seq<(string, Incident)> | DistinctIds(t)

  /** `incidents.get(id)`. */
  function GetIncident(table: IncidentTable, id: string): (r: Lookup<Incident>)
    ensures r.NotFound? <==> forall i :: 0 <= i < |table| ==> table[i].0 != id
    ensures forall i :: 0 <= i < |table| && table[i].0 == id ==> r == Found(table[i].1)
    decreases |table|
  {
    if table == [] then NotFound
    else if table[0].0 == id then Found(table[0].1)
    else
      var r := GetIncident(table[1..], id);
      assert forall i :: 1 <= i < |table| ==> table[i] == table[1..][i - 1];
      r
  }
}
