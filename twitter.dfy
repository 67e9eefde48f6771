/** The boundary with the upstream social-graph API: classification of permanent
    account errors, the profile lookups that turn a suspended or deleted account
    into a placeholder profile, and the page helpers that append one page of
    friend or follower IDs to a node. */
module Twitter {
  import opened Strconv
  import opened Records

  /** The upstream API as one authorised client sees it during a tick: a lookup
      by screen name, a lookup by numeric ID, and the two paginated ID lists
      (arguments: the account's numeric ID and the cursor). */
  datatype Upstream = Upstream(
    showByName: string -> Result<TwitterUser>,
    showByID: Int64 -> Result<TwitterUser>,
    friendIDs: (Int64, Int64) -> Result<IDPage>,
    followerIDs: (Int64, Int64) -> Result<IDPage>)

  /** The placeholder name of a permanently unavailable account, or "" when the
      error is not one of the two permanent API errors (code 63: suspended, code
      50: not found), judged by the first entry of the API's error list. */
  function PermanentErrorMessage(err: Error): (msg: string)
    ensures msg == "SUSPENDED" <==> err.ApiError? && |err.errors| > 0 && err.errors[0].code == 63
    ensures msg == "NOT FOUND" <==> err.ApiError? && |err.errors| > 0 && err.errors[0].code == 50
    ensures msg == "" <==> !(err.ApiError? && |err.errors| > 0 && err.errors[0].code in {50, 63})
  {
    if err.ApiError? && |err.errors| > 0 then
      if err.errors[0].code == 63 then "SUSPENDED"
      else if err.errors[0].code == 50 then "NOT FOUND"
      else ""
    else ""
  }

  /** An account ID parsed as strconv.ParseInt(id, 10, 64) does, with its error. */
  function ParseID(id: string): (r: Result<Int64>)
    ensures r.Ok? <==> ParseInt(id).Parsed?
    ensures r.Ok? ==> r.value == ParseInt(id).value
    ensures r.Err? ==> r.error.NumError? && r.error.input == id
  {
    match ParseInt(id)
    case Parsed(v) => Ok(v)
    case SyntaxError => Err(NumError(id, "invalid syntax"))
    case RangeError => Err(NumError(id, "value out of range"))
  }

  /** getTwitterUserByName: the profile of a screen name; a permanent error
      gives a placeholder carrying the requested name and zero counts. */
  function GetTwitterUserByName(api: Upstream, handle: string): (r: Result<TwitterUser>)
    ensures api.showByName(handle).Ok? ==> r == api.showByName(handle)
    ensures api.showByName(handle).Err? && PermanentErrorMessage(api.showByName(handle).error) != "" ==>
      r.Ok? && r.value.screenName == handle && r.value.friendsCount == 0 && r.value.followersCount == 0
    ensures r.Err? <==>
      api.showByName(handle).Err? && PermanentErrorMessage(api.showByName(handle).error) == ""
    ensures r.Err? ==> r == api.showByName(handle)
  {
    match api.showByName(handle)
    case Ok(u) => Ok(u)
    case Err(e) =>
      if PermanentErrorMessage(e) != "" then Ok(EmptyTwitterUser.(screenName := handle)) else Err(e)
  }

  /** getTwitterUser: the profile of an account ID. An ID that does not parse is
      an error; a permanent error gives a placeholder whose ID is the requested
      one, whose name is the placeholder message, and whose counts are zero. */
  function GetTwitterUser(api: Upstream, twitterID: string): (r: Result<TwitterUser>)
    ensures ParseID(twitterID).Err? ==> r == Err(ParseID(twitterID).error)
    ensures ParseID(twitterID).Ok? && api.showByID(ParseID(twitterID).value).Ok? ==>
      r == api.showByID(ParseID(twitterID).value)
    ensures ParseID(twitterID).Ok? && api.showByID(ParseID(twitterID).value).Err? ==>
      var e := api.showByID(ParseID(twitterID).value).error;
      (PermanentErrorMessage(e) == "" ==> r == Err(e)) &&
      (PermanentErrorMessage(e) != "" ==>
         r.Ok? && r.value.idStr == twitterID && r.value.screenName == PermanentErrorMessage(e) &&
         r.value.friendsCount == 0 && r.value.followersCount == 0)
  {
    match ParseID(twitterID)
    case Err(e) => Err(e)
    case Ok(n) =>
      match api.showByID(n)
      case Ok(u) => Ok(u)
      case Err(e) =>
        var msg := PermanentErrorMessage(e);
        if msg != "" then Ok(EmptyTwitterUser.(idStr := twitterID, screenName := msg)) else Err(e)
  }

  /** One page of a node's friend or follower IDs from the API, starting at the
      cursor; fails when the node's ID does not parse. */
  function FetchIDs(api: Upstream, twitterID: string, kind: ListKind, cursor: Int64): Result<IDPage> {
    match ParseID(twitterID)
    case Err(e) => Err(e)
    case Ok(n) => if kind == Friends then api.friendIDs(n, cursor) else api.followerIDs(n, cursor)
  }

  /** The text form of every ID of a page, in page order. */
  function FormatAll(ids: seq<Int64>): (r: seq<string>)
    ensures |r| == |ids|
    ensures forall i :: 0 <= i < |ids| ==> r[i] == FormatInt(ids[i])
  {
    seq(|ids|, i requires 0 <= i < |ids| => FormatInt(ids[i]))
  }

  /** Distinct IDs have distinct text forms, so a page of distinct IDs gives
      distinct child keys. */
  lemma FormatAllDistinct(ids: seq<Int64>, i: nat, j: nat)
    requires i < |ids| && j < |ids|
    ensures FormatAll(ids)[i] == FormatAll(ids)[j] <==> ids[i] == ids[j]
  {
    FormatIntInjective(ids[i], ids[j]);
  }

  function IDList(n: GephiNode, kind: ListKind): seq<string> {
    if kind == Friends then n.friendIDs else n.followerIDs
  }

  /** The node with one of its ID lists replaced. */
  function WithIDList(n: GephiNode, kind: ListKind, ids: seq<string>): (r: GephiNode)
    ensures IDList(r, kind) == ids
    ensures IDList(r, if kind == Friends then Followers else Friends) ==
            IDList(n, if kind == Friends then Followers else Friends)
  {
    if kind == Friends then n.(friendIDs := ids) else n.(followerIDs := ids)
  }

  /** The IDs one page added and the cursor of the page after it. */
  datatype PageAdded = PageAdded(addedIDs: seq<string>, nextCursor: Int64)

  /** addFriendsPage / addFollowersPage: fetch one page of the node's friend
      (kind == Friends) or follower IDs at the cursor and append their text forms
      to the node's list, keeping the existing list as a prefix. On any error
      (an ID that does not parse, an API failure) the node is unchanged. */
  method AddPage(api: Upstream, node: GephiNode, kind: ListKind, cursor: Int64)
    returns (r: Result<PageAdded>, node': GephiNode)
    ensures FetchIDs(api, node.twitterID, kind, cursor).Err? ==>
      r == Err(FetchIDs(api, node.twitterID, kind, cursor).error) && node' == node
    ensures FetchIDs(api, node.twitterID, kind, cursor).Ok? ==>
      var page := FetchIDs(api, node.twitterID, kind, cursor).value;
      && r == Ok(PageAdded(FormatAll(page.ids), page.nextCursor))
      && node' == WithIDList(node, kind, IDList(node, kind) + FormatAll(page.ids))
  {
    var fetched := FetchIDs(api, node.twitterID, kind, cursor);
    if fetched.Err? {
      return Err(fetched.error), node;
    }
    var page := fetched.value;
    var added: seq<string> := [];
    for i := 0 to |page.ids|
      invariant |added| == i
      invariant forall k :: 0 <= k < i ==> added[k] == FormatInt(page.ids[k])
    {
      added := added + [FormatInt(page.ids[i])];
    }
    assert added == FormatAll(page.ids);
    node' := WithIDList(node, kind, IDList(node, kind) + added);
    r := Ok(PageAdded(added, page.nextCursor));
  }
}
