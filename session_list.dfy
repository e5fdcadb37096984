/**
 * The "My Sessions" page: its list of the user's sessions with the loading
 * and error flags, the refetch, and the delete that filters the list.
 */
module SessionList {
  import opened Wrappers
  import opened Client

  const FetchFailedMessage := "Failed to fetch your sessions"

  /** `list.filter(s => s.id !== id)`. */
  function WithoutId(list: seq<Record>, id: int): (r: seq<Record>)
    ensures |r| <= |list|
    ensures forall x :: x in r ==> x in list && x.id != id
    ensures forall x :: x in list && x.id != id ==> x in r
  {
    if list == [] then []
    else (if list[0].id != id then [list[0]] else []) + WithoutId(list[1..], id)
  }

  /** The filter keeps the survivors in their original order: it distributes over concatenation. */
  lemma {:induction false} WithoutIdAppend(a: seq<Record>, b: seq<Record>, id: int)
    ensures WithoutId(a + b, id) == WithoutId(a, id) + WithoutId(b, id)
  {
    if a == [] {
      assert a + b == b;
    } else {
      assert (a + b)[0] == a[0] && (a + b)[1..] == a[1..] + b;
      WithoutIdAppend(a[1..], b, id);
    }
  }

  /** Each element is kept when its id differs and dropped when it matches. */
  lemma WithoutIdSingleton(x: Record, id: int)
    ensures WithoutId([x], id) == if x.id != id then [x] else []
  {
    assert [x][1..] == [];
  }

  /** A list holding no entry with that id is left exactly as it was. */
  lemma {:induction false} WithoutIdAbsent(list: seq<Record>, id: int)
    requires forall i :: 0 <= i < |list| ==> list[i].id != id
    ensures WithoutId(list, id) == list
  {
    if list != [] {
      WithoutIdAbsent(list[1..], id);
      assert [list[0]] + list[1..] == list;
    }
  }

  class MySessions {
    var sessions: seq<Record>
    var loading: bool
    var error: string
    var calls: seq<Call>

    /** The page mounts with an empty list, `loading` set and no error. */
    constructor ()
      ensures sessions == [] && loading && error == "" && calls == []
    {
      sessions, loading, error, calls := [], true, "", [];
    }

    /** The synchronous start of `fetchSessions`: flags set, list emptied, the GET issued. */
    method BeginFetch()
      modifies this
      ensures loading && error == "" && sessions == []
      ensures calls == old(calls) + [GetMySessions]
    {
      loading := true;
      error := "";
      sessions := [];
      calls := calls + [GetMySessions];
    }

    /** The GET settling: the list is the response data, or the error is shown. */
    method SettleFetch(response: Response<seq<Record>>)
      modifies this
      ensures !loading && calls == old(calls)
      ensures response.Ok? ==> sessions == response.data && error == old(error)
      ensures response.Err? ==> sessions == old(sessions) && error == FetchFailedMessage
    {
      match response {
        case Ok(list) =>
          sessions := list;
        case Err(_) =>
          error := FetchFailedMessage;
      }
      loading := false;
    }

    /** `fetchSessions` when no other fetch overlaps it. */
    method FetchSessions(response: Response<seq<Record>>)
      modifies this
      ensures !loading && calls == old(calls) + [GetMySessions]
      ensures response.Ok? ==> sessions == response.data && error == ""
      ensures response.Err? ==> sessions == [] && error == FetchFailedMessage
    {
      BeginFetch();
      SettleFetch(response);
    }

    /**
     * `deleteSession`: nothing happens unless confirmed; then one DELETE,
     * after which the list loses every entry with that id, or, when the call
     * fails, stays as it was and an alert is raised.
     */
    method DeleteSession(id: int, confirmed: bool, response: Response<()>) returns (alerted: bool)
      modifies this
      ensures loading == old(loading) && error == old(error)
      ensures !confirmed ==> !alerted && sessions == old(sessions) && calls == old(calls)
      ensures confirmed ==> calls == old(calls) + [Client.DeleteSession(id)]
      ensures confirmed && response.Ok? ==> !alerted && sessions == WithoutId(old(sessions), id)
      ensures confirmed && response.Err? ==> alerted && sessions == old(sessions)
    {
      alerted := false;
      if !confirmed {
        return;
      }
      calls := calls + [Client.DeleteSession(id)];
      if response.Ok? {
        sessions := WithoutId(sessions, id);
      } else {
        alerted := true;
      }
    }
  }
}
