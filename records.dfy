/** The records the crawler keeps: the graph node embedded in every job and child
    task, the backend's job record (RootHandle) and child record (FetchedHandle),
    the application user, the upstream profile, and the errors that cross the
    boundaries between components. */
module Records {
  import opened Strconv

  /** Descriptions are cut to this many bytes before they are stored. */
  const MaxDescription: nat := 500

  /** A hydrated child's own friend/follower page is fetched only when the
      corresponding count is positive and at most this ceiling. */
  const FanOutCeiling: int := 5000

  const RelRoot: string := "Root"
  const RelFriend: string := "Friend"
  const RelFollower: string := "Follower"

  datatype Option<+T> = None | Some(value: T)

  datatype Result<+T> = Ok(value: T) | Err(error: Error)

  /** One entry of the upstream API's error list. */
  datatype ErrorDetail = ErrorDetail(code: int, message: string)

  datatype Error =
    | ApiError(errors: seq<ErrorDetail>)       // the upstream API's typed error
    | Transport(message: string)               // any other failure of an upstream call
    | NumError(input: string, reason: string)  // an ID that does not parse as an int64
    | AlreadyDone(twitterID: string)           // a tick on a finished job
    | NotFound(message: string)                // a store document that does not exist
    | AlreadyExists(message: string)           // a store Create on an existing document

  /** The text each error prints as (Go's Error() method). The upstream error
      prints its first entry; strconv quotes the input (escaping is not modelled). */
  function ErrorText(e: Error): (t: string)
    ensures e.AlreadyDone? ==> t == "User was already done: " + e.twitterID
  {
    match e
    case ApiError(errors) =>
      if |errors| > 0 then "twitter: " + FormatInt(errors[0].code) + " " + errors[0].message else ""
    case Transport(m) => m
    case NumError(input, reason) => "strconv.ParseInt: parsing \"" + input + "\": " + reason
    case AlreadyDone(id) => "User was already done: " + id
    case NotFound(m) => m
    case AlreadyExists(m) => m
  }

  /** One account of the graph. Go strings are byte strings: every string here
      holds one element per byte. */
  datatype GephiNode = GephiNode(
    twitterID: string,
    screenName: string,
    relationship: string,
    friendsCount: int,
    followersCount: int,
    friendIDs: seq<string>,
    followerIDs: seq<string>,
    done: bool,
    profileURL: string,
    description: string,
    profileImageURL: string)

  /** The node a freshly discovered child starts as: only its ID and its
      relationship to the root are known. */
  function BareNode(twitterID: string, relationship: string): (n: GephiNode)
    ensures n.twitterID == twitterID && n.relationship == relationship
    ensures !n.done && n.friendIDs == [] && n.followerIDs == []
  {
    GephiNode(twitterID, "", relationship, 0, 0, [], [], false, "", "", "")
  }

  /** A crawl job: the root account plus its two pagination cursors (-1: not
      started, 0: exhausted, otherwise the upstream's continuation token), the
      count of children still to hydrate (-1: not counted yet), the last status
      message and the output-phase flag. */
  datatype RootHandle = RootHandle(
    loginID: string,
    node: GephiNode,
    followersCursor: Int64,
    friendsCursor: Int64,
    status: string,
    remaining: int,
    prepareGraph: bool)

  /** A friend or follower of a job's root, waiting to be hydrated. */
  datatype FetchedHandle = FetchedHandle(parentID: string, node: GephiNode)

  /** An application user with the upstream OAuth credentials it stored. */
  datatype User = User(accessToken: string, accessSecret: string, loginID: string, screenName: string)

  /** The upstream profile of one account (the fields the crawler reads). */
  datatype TwitterUser = TwitterUser(
    id: Int64,
    idStr: string,
    screenName: string,
    friendsCount: int,
    followersCount: int,
    url: string,
    description: string,
    profileImageURL: string,
    profileImageURLHttps: string)

  /** A profile with every field at its zero value. */
  const EmptyTwitterUser: TwitterUser := TwitterUser(0, "", "", 0, 0, "", "", "", "")

  /** One page of IDs from the upstream API and the cursor of the next page
      (0 when there is none). */
  datatype IDPage = IDPage(ids: seq<Int64>, nextCursor: Int64)

  /** The two ID lists of a node. */
  datatype ListKind = Friends | Followers

  /** A description as it is stored: its first MaxDescription bytes. */
  function TruncateDescription(d: string): (r: string)
    ensures |r| == if |d| > MaxDescription then MaxDescription else |d|
    ensures r == d[..|r|]
  {
    if |d| > MaxDescription then d[..MaxDescription] else d
  }

  /** The distinct IDs a node lists as friends or followers. */
  function ListedIDs(n: GephiNode): set<string> {
    (set f | f in n.friendIDs) + (set f | f in n.followerIDs)
  }

  /** Every element of s occurs in it once, and s holds exactly the elements of
      S: one walk over a set in some order. */
  ghost predicate Enumerates<T(!new)>(s: seq<T>, S: set<T>) {
    && (forall i, j :: 0 <= i < j < |s| ==> s[i] != s[j])
    && (forall x :: x in s <==> x in S)
  }

  /** hydrateHandle: the child as it is written back once its profile is known.
      The flag, the counts, the name, the profile and image URLs and the
      (truncated) description come from the profile; the ID lists, the ID, the
      relationship and the parent are kept. */
  function Hydrated(h: FetchedHandle, u: TwitterUser): (h': FetchedHandle)
    ensures h'.parentID == h.parentID && h'.node.done
    ensures h'.node.twitterID == h.node.twitterID && h'.node.relationship == h.node.relationship
    ensures h'.node.friendIDs == h.node.friendIDs && h'.node.followerIDs == h.node.followerIDs
    ensures h'.node.friendsCount == u.friendsCount && h'.node.followersCount == u.followersCount
    ensures h'.node.screenName == u.screenName && h'.node.profileURL == u.url
    ensures h'.node.profileImageURL == u.profileImageURL
    ensures h'.node.description == TruncateDescription(u.description)
  {
    h.(node := h.node.(
      friendsCount := u.friendsCount,
      followersCount := u.followersCount,
      screenName := u.screenName,
      done := true,
      profileURL := u.url,
      description := TruncateDescription(u.description),
      profileImageURL := u.profileImageURL))
  }
}
