/** The JSON-document store of database/db.js: one document holding the
    `users` and `buttons` lists, read, edited and written back by every
    operation. The file itself is not modelled; the document is the state of
    a `Database` object, and the clock is an integer parameter `now`.
 */
module Store {
  import opened Values
  import opened Sequences
  import opened Text

  datatype User = User(
    id: int,
    email: Option<string>,
    password: Option<string>,
    name: string,
    googleId: Option<string>,
    avatarUrl: Option<string>,
    createdAt: int)

  /** The fields `dbCreateUser` takes from its caller. */
  datatype NewUser = NewUser(
    email: Option<string>,
    password: Option<string>,
    name: string,
    googleId: Option<string>,
    avatarUrl: Option<string>)

  /** A partial user object spread over a stored one: `None` is a key the
      object does not have, `Some(v)` overrides the stored field with `v`. */
  datatype UserPatch = UserPatch(
    email: Option<Option<string>>,
    password: Option<Option<string>>,
    name: Option<string>,
    googleId: Option<Option<string>>,
    avatarUrl: Option<Option<string>>)

  datatype Button = Button(
    id: int,
    userId: int,
    name: string,
    linkType: string,
    linkUrl: Option<string>,
    whatsappDdd: Option<string>,
    whatsappNumber: Option<string>,
    position: string,
    createdAt: int,
    updatedAt: int)

  /** The fields `dbCreateButton` takes from its caller. */
  datatype NewButton = NewButton(
    userId: int,
    name: string,
    linkType: string,
    linkUrl: Option<string>,
    whatsappDdd: Option<string>,
    whatsappNumber: Option<string>,
    position: Option<string>)

  /** A partial button object spread over a stored one, as for `UserPatch`. */
  datatype ButtonPatch = ButtonPatch(
    name: Option<string>,
    linkType: Option<string>,
    linkUrl: Option<Option<string>>,
    whatsappDdd: Option<Option<string>>,
    whatsappNumber: Option<Option<string>>,
    position: Option<string>)

  /** The two errors `dbCreateUser` throws. */
  datatype UserError = DuplicateEmail | DuplicateGoogleId

  const DefaultPosition: string := "bottom-right"

  function UserIds(us: seq<User>): (ids: seq<int>)
    ensures |ids| == |us| && forall k :: 0 <= k < |us| ==> ids[k] == us[k].id
  {
    seq(|us|, k requires 0 <= k < |us| => us[k].id)
  }

  function ButtonIds(bs: seq<Button>): (ids: seq<int>)
    ensures |ids| == |bs| && forall k :: 0 <= k < |bs| ==> ids[k] == bs[k].id
  {
    seq(|bs|, k requires 0 <= k < |bs| => bs[k].id)
  }

  ghost predicate UniqueUserIds(us: seq<User>) {
    forall i, j :: 0 <= i < j < |us| ==> us[i].id != us[j].id
  }

  ghost predicate UniqueButtonIds(bs: seq<Button>) {
    forall i, j :: 0 <= i < j < |bs| ==> bs[i].id != bs[j].id
  }

  /** A new id: 1 for an empty list, otherwise the largest id plus one. It
      is larger than, hence different from, every existing id. */
  function NextId(ids: seq<int>): (r: int)
    ensures |ids| == 0 ==> r == 1
    ensures |ids| > 0 ==> r - 1 in ids
    ensures forall k :: 0 <= k < |ids| ==> ids[k] < r
  {
    if |ids| > 0 then MaxOf(ids) + 1 else 1
  }

  /** The record `dbCreateUser` appends: password, Google id and avatar
      default to null when falsy; the email is kept as given. */
  function UserRecord(id: int, input: NewUser, now: int): (u: User)
    ensures u.id == id && u.createdAt == now
    ensures u.email == input.email && u.name == input.name
    ensures u.password == OrNull(input.password)
    ensures u.googleId == OrNull(input.googleId)
    ensures u.avatarUrl == OrNull(input.avatarUrl)
  {
    User(id, input.email, OrNull(input.password), input.name,
         OrNull(input.googleId), OrNull(input.avatarUrl), now)
  }

  /** The record `dbCreateButton` appends: the position defaults to
      bottom-right when falsy, both timestamps are `now`. */
  function ButtonRecord(id: int, input: NewButton, now: int): (b: Button)
    ensures b.id == id && b.userId == input.userId
    ensures b.createdAt == now && b.updatedAt == now
    ensures b.name == input.name && b.linkType == input.linkType && b.linkUrl == input.linkUrl
    ensures b.whatsappDdd == input.whatsappDdd && b.whatsappNumber == input.whatsappNumber
    ensures b.position == OrElse(input.position, DefaultPosition)
  {
    Button(id, input.userId, input.name, input.linkType, input.linkUrl,
           input.whatsappDdd, input.whatsappNumber, OrElse(input.position, DefaultPosition), now, now)
  }

  function Override<T>(stored: T, given: Option<T>): (r: T)
    ensures given.Some? ==> r == given.value
    ensures given.None? ==> r == stored
  {
    if given.Some? then given.value else stored
  }

  /** `{...stored, ...patch}`: every key the patch has wins, the id and the
      creation time are kept. */
  function MergeUser(u: User, p: UserPatch): (r: User)
    ensures r.id == u.id && r.createdAt == u.createdAt
    ensures r.name == Override(u.name, p.name)
    ensures r.email == Override(u.email, p.email)
    ensures r.password == Override(u.password, p.password)
    ensures r.googleId == Override(u.googleId, p.googleId)
    ensures r.avatarUrl == Override(u.avatarUrl, p.avatarUrl)
  {
    User(u.id, Override(u.email, p.email), Override(u.password, p.password), Override(u.name, p.name),
         Override(u.googleId, p.googleId), Override(u.avatarUrl, p.avatarUrl), u.createdAt)
  }

  /** `{...stored, ...patch, updated_at: now}`: the id, owner and creation
      time are kept, `updated_at` is refreshed. */
  function MergeButton(b: Button, p: ButtonPatch, now: int): (r: Button)
    ensures r.id == b.id && r.userId == b.userId && r.createdAt == b.createdAt
    ensures r.updatedAt == now
    ensures r.name == Override(b.name, p.name) && r.linkType == Override(b.linkType, p.linkType)
    ensures r.linkUrl == Override(b.linkUrl, p.linkUrl)
    ensures r.whatsappDdd == Override(b.whatsappDdd, p.whatsappDdd)
    ensures r.whatsappNumber == Override(b.whatsappNumber, p.whatsappNumber)
    ensures r.position == Override(b.position, p.position)
  {
    Button(b.id, b.userId, Override(b.name, p.name), Override(b.linkType, p.linkType),
           Override(b.linkUrl, p.linkUrl), Override(b.whatsappDdd, p.whatsappDdd),
           Override(b.whatsappNumber, p.whatsappNumber), Override(b.position, p.position), b.createdAt, now)
  }

  predicate EmailTaken(users: seq<User>, email: Option<string>) {
    Truthy(email) && exists k :: 0 <= k < |users| && users[k].email == email
  }

  predicate GoogleIdTaken(users: seq<User>, googleId: Option<string>) {
    Truthy(googleId) && exists k :: 0 <= k < |users| && users[k].googleId == googleId
  }

  function CreatedAt(b: Button): int {
    b.createdAt
  }

  /** The buttons of one owner, in document order. */
  function OwnedBy(bs: seq<Button>, userId: int): (r: seq<Button>)
    ensures forall k :: 0 <= k < |r| ==> r[k] in bs && r[k].userId == userId
    ensures forall k :: 0 <= k < |bs| && bs[k].userId == userId ==> bs[k] in r
  {
    Filter(bs, (b: Button) => b.userId == userId)
  }

  /** Sorting one owner's buttons newest first keeps exactly that owner's
      buttons. */
  lemma NewestFirstOwned(bs: seq<Button>, userId: int)
    ensures var sorted := SortByKeyDescending(OwnedBy(bs, userId), CreatedAt);
      (forall k :: 0 <= k < |sorted| ==> sorted[k] in bs && sorted[k].userId == userId) &&
      (forall k :: 0 <= k < |bs| && bs[k].userId == userId ==> bs[k] in sorted) &&
      multiset(sorted) == multiset(OwnedBy(bs, userId)) && DescendingBy(sorted, CreatedAt)
  {
    var owned := OwnedBy(bs, userId);
    var sorted := SortByKeyDescending(owned, CreatedAt);
    SortDescendingPermutation(owned, CreatedAt);
    forall k | 0 <= k < |sorted| ensures sorted[k] in bs && sorted[k].userId == userId {
      assert sorted[k] in multiset(owned);
    }
    forall k | 0 <= k < |bs| && bs[k].userId == userId ensures bs[k] in sorted {
      assert bs[k] in multiset(owned);
    }
  }

  /** `users.findIndex(u => u.id === id)`. */
  function IndexOfUserId(us: seq<User>, id: int): (i: int)
    ensures -1 <= i < |us|
    ensures i == -1 <==> forall k :: 0 <= k < |us| ==> us[k].id != id
    ensures 0 <= i ==> us[i].id == id && forall k :: 0 <= k < i ==> us[k].id != id
  {
    FindIndex(us, (u: User) => u.id == id)
  }

  predicate Targets(b: Button, id: int, userId: int) {
    b.id == id && b.userId == userId
  }

  /** `buttons.findIndex(b => b.id === id)`: the first position holding a
      button with that id, or -1. */
  function IndexOfId(bs: seq<Button>, id: int): (i: int)
    ensures -1 <= i < |bs|
    ensures i == -1 <==> forall k :: 0 <= k < |bs| ==> bs[k].id != id
    ensures 0 <= i ==> bs[i].id == id && forall k :: 0 <= k < i ==> bs[k].id != id
  {
    FindIndex(bs, (b: Button) => b.id == id)
  }

  /** `buttons.findIndex(b => b.id === id && b.user_id === userId)`. */
  function IndexOfTarget(bs: seq<Button>, id: int, userId: int): (i: int)
    ensures -1 <= i < |bs|
    ensures i == -1 <==> forall k :: 0 <= k < |bs| ==> !Targets(bs[k], id, userId)
    ensures 0 <= i ==> Targets(bs[i], id, userId) && forall k :: 0 <= k < i ==> !Targets(bs[k], id, userId)
  {
    FindIndex(bs, (b: Button) => Targets(b, id, userId))
  }

  /** When the first button with an id belongs to `userId`, the owner-scoped
      search stops at the same position. */
  lemma FirstOwnedIsTarget(bs: seq<Button>, id: int, userId: int)
    requires IndexOfId(bs, id) >= 0 && bs[IndexOfId(bs, id)].userId == userId
    ensures IndexOfTarget(bs, id, userId) == IndexOfId(bs, id)
  {
    var f := IndexOfId(bs, id);
    var t := IndexOfTarget(bs, id, userId);
    assert Targets(bs[f], id, userId);
    assert t <= f;
    assert bs[t].id == id;
  }

  /** Overwriting the first button with an id by one with the same id keeps
      it the first. */
  lemma OverwriteKeepsIndex(bs: seq<Button>, b: Button)
    requires IndexOfId(bs, b.id) >= 0
    ensures IndexOfId(bs[IndexOfId(bs, b.id) := b], b.id) == IndexOfId(bs, b.id)
  {
    var f := IndexOfId(bs, b.id);
    var after := bs[f := b];
    var g := IndexOfId(after, b.id);
    assert after[f].id == b.id;
    assert g <= f;
    assert after[g] == bs[g] || g == f;
  }

  /** A button appended with an id no other button has is found at the end. */
  lemma AppendedIsFound(bs: seq<Button>, b: Button)
    requires forall k :: 0 <= k < |bs| ==> bs[k].id != b.id
    ensures IndexOfId(bs + [b], b.id) == |bs|
  {
    var after := bs + [b];
    var g := IndexOfId(after, b.id);
    assert after[|bs|].id == b.id;
    assert forall k :: 0 <= k < |bs| ==> after[k] == bs[k];
  }

  /** `buttons.filter(b => !(b.id === id && b.user_id === userId))`. */
  function WithoutButton(bs: seq<Button>, id: int, userId: int): (r: seq<Button>)
    ensures forall k :: 0 <= k < |r| ==> r[k] in bs && !Targets(r[k], id, userId)
    ensures forall k :: 0 <= k < |bs| && !Targets(bs[k], id, userId) ==> bs[k] in r
    ensures |r| < |bs| <==> exists k :: 0 <= k < |bs| && Targets(bs[k], id, userId)
  {
    Filter(bs, (b: Button) => !Targets(b, id, userId))
  }

  /** When no button has both the id and the owner, delete keeps the list. */
  lemma WithoutNoTarget(bs: seq<Button>, id: int, userId: int)
    requires forall k :: 0 <= k < |bs| ==> !Targets(bs[k], id, userId)
    ensures WithoutButton(bs, id, userId) == bs
  {
    FilterAll(bs, (b: Button) => !Targets(b, id, userId));
  }

  /** Filtering never makes two kept buttons share an id. */
  lemma {:induction false} FilterKeepsUniqueIds(bs: seq<Button>, p: Button -> bool)
    requires UniqueButtonIds(bs)
    ensures UniqueButtonIds(Filter(bs, p))
    decreases |bs|
  {
    if |bs| > 0 {
      var tail := bs[1..];
      FilterKeepsUniqueIds(tail, p);
      var rest := Filter(tail, p);
      var otherId := (b: Button) => b.id != bs[0].id;
      forall j | 0 <= j < |tail| ensures otherId(tail[j]) {
        assert tail[j] == bs[j + 1];
      }
      FilterKeepsAll(tail, p, otherId);
      if p(bs[0]) {
        assert Filter(bs, p) == [bs[0]] + rest;
        ConsKeepsUniqueIds(bs[0], rest);
      } else {
        assert Filter(bs, p) == rest;
      }
    }
  }

  lemma ConsKeepsUniqueIds(b: Button, rest: seq<Button>)
    requires UniqueButtonIds(rest)
    requires forall k :: 0 <= k < |rest| ==> rest[k].id != b.id
    ensures UniqueButtonIds([b] + rest)
  {
    var r := [b] + rest;
    forall i, j | 0 <= i < j < |r| ensures r[i].id != r[j].id {
      assert r[j] == rest[j - 1];
      if i > 0 {
        assert r[i] == rest[i - 1];
      }
    }
  }

  /** With unique ids, deleting a button that exists removes exactly that
      one entry and keeps the others in their order. */
  lemma DeleteRemovesOneEntry(bs: seq<Button>, i: int, id: int, userId: int)
    requires UniqueButtonIds(bs)
    requires 0 <= i < |bs| && Targets(bs[i], id, userId)
    ensures WithoutButton(bs, id, userId) == bs[..i] + bs[i + 1..]
  {
    var p := (b: Button) => !Targets(b, id, userId);
    assert bs == bs[..i] + [bs[i]] + bs[i + 1..];
    var head, tail := bs[..i], bs[i + 1..];
    forall k | 0 <= k < |head| ensures p(head[k]) {
      assert head[k] == bs[k];
    }
    forall k | 0 <= k < |tail| ensures p(tail[k]) {
      assert tail[k] == bs[i + 1 + k];
    }
    FilterRemovesOne(head, bs[i], tail, p);
  }

  /** The key a lookup of `dbGetUser` compares against: the string it was
      given, or a number (`parseInt` of it, for the id lookups). */
  datatype Param = TextKey(text: string) | Number(number: int)

  /** A row `dbGetUser` returns: the whole record, or the four public
      columns the profile query selects. */
  datatype UserRow =
    | FullRow(user: User)
    | ProfileRow(id: int, email: Option<string>, name: string, avatarUrl: Option<string>)

  /** The lookups `dbGetUser` chooses between by inspecting the query. */
  datatype UserLookup = ByEmail | ByGoogleId | ById | Profile | NoLookup

  const ProfileSelect: string := "SELECT id, email, name, avatar_url FROM users "

  /** The query `/api/auth/me` sends for the caller's public profile. */
  const ProfileQuery: string := ProfileSelect + "WHERE id = ?"

  /** The dispatch as written: the id test comes before the profile test. */
  function ClassifyUserQuery(query: string): UserLookup {
    if IsInfix("WHERE email = ?", query) then ByEmail
    else if IsInfix("WHERE google_id = ?", query) then ByGoogleId
    else if IsInfix("WHERE id = ?", query) then ById
    else if IsInfix(ProfileQuery, query) then Profile
    else NoLookup
  }

  /** The dispatch as evidently intended: the profile query is recognised
      before the generic id lookup. */
  function ClassifyUserQueryFixed(query: string): UserLookup {
    if IsInfix(ProfileQuery, query) then Profile
    else ClassifyUserQuery(query)
  }

  lemma {:induction false} InfixNotBefore(p: string, a: string, b: string)
    requires |p| > 0 && p[0] !in a
    requires IsInfix(p, a + b)
    ensures IsInfix(p, b)
    decreases |a|
  {
    if |a| > 0 {
      assert (a + b)[0] == a[0];
      assert !IsPrefix(p, a + b);
      assert (a + b)[1..] == a[1..] + b;
      InfixNotBefore(p, a[1..], b);
    } else {
      assert a + b == b;
    }
  }

  lemma {:induction false} InfixNotLonger(p: string, t: string)
    requires IsInfix(p, t)
    ensures |p| <= |t|
    decreases |t|
  {
    if !IsPrefix(p, t) {
      InfixNotLonger(p, t[1..]);
    }
  }

  /** The profile branch of `dbGetUser` is dead code: every query that
      contains the profile query also contains `WHERE id = ?`. */
  lemma ProfileBranchUnreachable(query: string)
    ensures ClassifyUserQuery(query) != Profile
  {
    if IsInfix(ProfileQuery, query) {
      assert ProfileSelect + "WHERE id = ?" + "" == ProfileQuery;
      InfixOfConcat(ProfileSelect, "WHERE id = ?", "");
      InfixTransitive("WHERE id = ?", ProfileQuery, query);
    }
  }

  lemma ProfileSelectPieces()
    ensures ProfileSelect == "SELECT id" + ", email, name" + ", avatar_url" + " FROM users "
  {
  }

  lemma ProfilePiecesHaveNoW()
    ensures 'W' !in "SELECT id" && 'W' !in ", email, name"
    ensures 'W' !in ", avatar_url" && 'W' !in " FROM users "
  {
  }

  /** The profile query has no `W` before its `WHERE`. */
  lemma ProfileQueryLetters()
    ensures ProfileQuery == ProfileSelect + "WHERE id = ?"
    ensures 'W' !in ProfileSelect
  {
    ProfileSelectPieces();
    ProfilePiecesHaveNoW();
  }

  /** The profile query, the one `/me` sends, is served by the generic id
      lookup: it returns the whole record, password hash included. */
  lemma ProfileQueryIsIdLookup()
    ensures ClassifyUserQuery(ProfileQuery) == ById
    ensures ClassifyUserQueryFixed(ProfileQuery) == Profile
  {
    var tail := "WHERE id = ?";
    ProfileQueryLetters();
    if IsInfix("WHERE email = ?", ProfileQuery) {
      InfixNotBefore("WHERE email = ?", ProfileSelect, tail);
      InfixNotLonger("WHERE email = ?", tail);
    }
    if IsInfix("WHERE google_id = ?", ProfileQuery) {
      InfixNotBefore("WHERE google_id = ?", ProfileSelect, tail);
      InfixNotLonger("WHERE google_id = ?", tail);
    }
    InfixOfConcat(ProfileSelect, tail, "");
    assert ProfileSelect + tail + "" == ProfileQuery;
    InfixOfConcat("", ProfileQuery, "");
    assert "" + ProfileQuery + "" == ProfileQuery;
  }

  /** The JSON document `{users, buttons}` held in memory. Every method
      below is one exported function of database/db.js, minus the file read
      before it and the file write after it. */
  class Database {
    var users: seq<User>
    var buttons: seq<Button>

    /** Ids stay unique in both lists. */
    ghost predicate Valid()
      reads this
    {
      UniqueUserIds(users) && UniqueButtonIds(buttons)
    }

    /** The document a missing data file starts as. */
    constructor ()
      ensures users == [] && buttons == []
      ensures Valid()
    {
      users := [];
      buttons := [];
    }

    /** `dbGetUser` by email: the first user whose email is exactly `email`. */
    function FindUserByEmail(email: string): (r: Option<User>)
      reads this
      ensures r.Some? ==> r.value in users && r.value.email == Some(email)
      ensures r.None? <==> forall k :: 0 <= k < |users| ==> users[k].email != Some(email)
      ensures r.Some? ==>
                exists i :: 0 <= i < |users| && users[i] == r.value && forall k :: 0 <= k < i ==> users[k].email != Some(email)
    {
      Find(users, (u: User) => u.email == Some(email))
    }

    /** `dbGetUser` by Google id. */
    function FindUserByGoogleId(googleId: string): (r: Option<User>)
      reads this
      ensures r.Some? ==> r.value in users && r.value.googleId == Some(googleId)
      ensures r.None? <==> forall k :: 0 <= k < |users| ==> users[k].googleId != Some(googleId)
      ensures r.Some? ==>
                exists i :: 0 <= i < |users| && users[i] == r.value && forall k :: 0 <= k < i ==> users[k].googleId != Some(googleId)
    {
      Find(users, (u: User) => u.googleId == Some(googleId))
    }

    /** `dbGetUser` by id. */
    function FindUserById(id: int): (r: Option<User>)
      reads this
      ensures r.Some? ==> r.value in users && r.value.id == id
      ensures r.None? <==> forall k :: 0 <= k < |users| ==> users[k].id != id
      ensures r.Some? ==>
                exists i :: 0 <= i < |users| && users[i] == r.value && forall k :: 0 <= k < i ==> users[k].id != id
    {
      Find(users, (u: User) => u.id == id)
    }

    function Lookup(kind: UserLookup, key: Param): (r: Option<UserRow>)
      reads this
      ensures kind == Profile && key.Number? ==>
                (r.Some? <==> FindUserById(key.number).Some?) &&
                (r.Some? ==> var u := FindUserById(key.number).value; r.value == ProfileRow(u.id, u.email, u.name, u.avatarUrl))
      ensures kind == ById && key.Number? ==>
                (r.Some? <==> FindUserById(key.number).Some?) && (r.Some? ==> r.value == FullRow(FindUserById(key.number).value))
    {
      match kind
      case ByEmail => if key.TextKey? then OptionRow(FindUserByEmail(key.text)) else None
      case ByGoogleId => if key.TextKey? then OptionRow(FindUserByGoogleId(key.text)) else None
      case ById => if key.Number? then OptionRow(FindUserById(key.number)) else None
      case Profile =>
        if key.Number? && FindUserById(key.number).Some? then
          var u := FindUserById(key.number).value;
          Some(ProfileRow(u.id, u.email, u.name, u.avatarUrl))
        else None
      case NoLookup => None
    }

    /** `dbGetUser(query, [key])` as written. */
    function GetUser(query: string, key: Param): (r: Option<UserRow>)
      reads this
      ensures r.Some? ==> r.value.FullRow?
    {
      ProfileBranchUnreachable(query);
      Lookup(ClassifyUserQuery(query), key)
    }

    /** `dbGetUser(query, [key])` with the profile branch reachable. */
    function GetUserFixed(query: string, key: Param): (r: Option<UserRow>)
      reads this
      ensures query == ProfileQuery && key.Number? ==>
                (r.Some? <==> FindUserById(key.number).Some?) &&
                (r.Some? ==> var u := FindUserById(key.number).value; r.value == ProfileRow(u.id, u.email, u.name, u.avatarUrl))
    {
      ProfileQueryIsIdLookup();
      Lookup(ClassifyUserQueryFixed(query), key)
    }

    /** What `/me` receives from the store as written: the stored record
        itself, password hash and Google id included. */
    lemma ProfileQueryReturnsPassword(id: int)
      requires FindUserById(id).Some?
      ensures GetUser(ProfileQuery, Number(id)) == Some(FullRow(FindUserById(id).value))
    {
      ProfileQueryIsIdLookup();
    }

    /** With unique ids the owner-scoped `dbGetButton` returns a button
        exactly when one with that id belongs to the caller. */
    lemma ScopedLookup(id: int, owner: int)
      requires Valid()
      ensures GetButton(id, Some(owner)).Some? <==>
                exists k :: 0 <= k < |buttons| && Targets(buttons[k], id, owner)
    {
      var r := GetButton(id, Some(owner));
      if exists k :: 0 <= k < |buttons| && Targets(buttons[k], id, owner) {
        var k :| 0 <= k < |buttons| && Targets(buttons[k], id, owner);
        var f := IndexOfId(buttons, id);
        assert 0 <= f && buttons[f].id == id;
        assert f == k;
      }
    }

    /** `dbGetButton`: the first button with that id, if there is one and,
        when an owner is given, it belongs to that owner. */
    function GetButton(id: int, owner: Option<int>): (r: Option<Button>)
      reads this
      ensures r.Some? ==> r.value in buttons && r.value.id == id
      ensures r.Some? && owner.Some? ==> r.value.userId == owner.value
      ensures owner.None? ==> (r.None? <==> forall k :: 0 <= k < |buttons| ==> buttons[k].id != id)
      ensures r.Some? ==> r.value == buttons[IndexOfId(buttons, id)]
      ensures r.None? <==>
                (IndexOfId(buttons, id) == -1 || (owner.Some? && buttons[IndexOfId(buttons, id)].userId != owner.value))
    {
      var i := IndexOfId(buttons, id);
      if i == -1 then None
      else if owner.Some? && buttons[i].userId != owner.value then None
      else Some(buttons[i])
    }

    /** `dbAllButtons` for one user: exactly that user's buttons; with
        `ORDER BY created_at DESC`, newest first. */
    function AllButtons(userId: int, newestFirst: bool): (r: seq<Button>)
      reads this
      ensures forall k :: 0 <= k < |r| ==> r[k] in buttons && r[k].userId == userId
      ensures forall k :: 0 <= k < |buttons| && buttons[k].userId == userId ==> buttons[k] in r
      ensures multiset(r) == multiset(OwnedBy(buttons, userId))
      ensures newestFirst ==> DescendingBy(r, CreatedAt)
      ensures !newestFirst ==> r == OwnedBy(buttons, userId)
    {
      var owned := OwnedBy(buttons, userId);
      if newestFirst then
        NewestFirstOwned(buttons, userId);
        SortByKeyDescending(owned, CreatedAt)
      else owned
    }

    /** Buttons created at the same instant are listed in document order,
        as the built-in sort is stable. */
    lemma ListIsStable(userId: int, t: int)
      ensures WithKey(AllButtons(userId, true), CreatedAt, t) == WithKey(OwnedBy(buttons, userId), CreatedAt, t)
    {
      SortStable(OwnedBy(buttons, userId), CreatedAt, t);
    }

    /** `dbCreateUser`. */
    method CreateUser(input: NewUser, now: int) returns (r: Result<int, UserError>)
      modifies this
      ensures buttons == old(buttons)
      ensures EmailTaken(old(users), input.email) ==> r == Err(DuplicateEmail) && users == old(users)
      ensures !EmailTaken(old(users), input.email) && GoogleIdTaken(old(users), input.googleId) ==>
                r == Err(DuplicateGoogleId) && users == old(users)
      ensures !EmailTaken(old(users), input.email) && !GoogleIdTaken(old(users), input.googleId) ==>
                r == Ok(NextId(UserIds(old(users)))) &&
                users == old(users) + [UserRecord(r.value, input, now)]
      ensures r.Ok? ==> forall k :: 0 <= k < |old(users)| ==> old(users)[k].id != r.value
      ensures old(Valid()) ==> Valid()
    {
      if Truthy(input.email) && Find(users, (u: User) => u.email == input.email).Some? {
        return Err(DuplicateEmail);
      }
      if Truthy(input.googleId) && Find(users, (u: User) => u.googleId == input.googleId).Some? {
        return Err(DuplicateGoogleId);
      }
      var newId := NextId(UserIds(users));
      users := users + [UserRecord(newId, input, now)];
      r := Ok(newId);
    }

    /** The user `dbCreateUser` appended is what the lookups by email, by
        Google id and by id then return: no earlier user shares its truthy
        email or Google id, and its id is new. */
    lemma CreatedUserIsFound(before: seq<User>, input: NewUser, now: int)
      requires !EmailTaken(before, input.email) && !GoogleIdTaken(before, input.googleId)
      requires users == before + [UserRecord(NextId(UserIds(before)), input, now)]
      ensures var u := users[|before|];
        (Truthy(input.email) ==> FindUserByEmail(input.email.value) == Some(u)) &&
        (Truthy(input.googleId) ==> FindUserByGoogleId(input.googleId.value) == Some(u)) &&
        FindUserById(u.id) == Some(u)
    {
      var u := users[|before|];
      assert forall k :: 0 <= k < |before| ==> users[k] == before[k];
      assert forall k :: 0 <= k < |before| ==> UserIds(before)[k] == before[k].id;
      if Truthy(input.email) {
        var found := FindUserByEmail(input.email.value);
        var i :| 0 <= i < |users| && users[i] == found.value &&
                 forall k :: 0 <= k < i ==> users[k].email != input.email;
        assert i == |before|;
      }
      if Truthy(input.googleId) {
        var found := FindUserByGoogleId(input.googleId.value);
        var i :| 0 <= i < |users| && users[i] == found.value &&
                 forall k :: 0 <= k < i ==> users[k].googleId != input.googleId;
        assert i == |before|;
      }
      var found := FindUserById(u.id);
      var i :| 0 <= i < |users| && users[i] == found.value &&
               forall k :: 0 <= k < i ==> users[k].id != u.id;
      assert i == |before|;
    }

    /** After `INSERT INTO users (email, password, name)`, the lookup by
        email that login performs finds the new user with the stored hash,
        the given name and no Google id. */
    lemma RegisteredUserIsFound(before: seq<User>, email: string, hash: string, name: string, now: int)
      requires email != "" && !EmailTaken(before, Some(email))
      requires users == before + [UserRecord(NextId(UserIds(before)), RegisterInsert(email, hash, name), now)]
      ensures var found := FindUserByEmail(email);
        found.Some? && found.value.id == NextId(UserIds(before)) && found.value.name == name &&
        (hash != "" ==> found.value.password == Some(hash)) &&
        found.value.googleId == None && found.value.avatarUrl == None
    {
      CreatedUserIsFound(before, RegisterInsert(email, hash, name), now);
    }

    /** After `INSERT INTO users (email, name, google_id, avatar_url)`, the
        lookup by Google id finds the new user, with no password. */
    lemma GoogleUserIsFound(before: seq<User>, email: string, name: string, googleId: string,
                            avatarUrl: Option<string>, now: int)
      requires email != "" && !EmailTaken(before, Some(email))
      requires googleId != "" && !GoogleIdTaken(before, Some(googleId))
      requires users == before + [UserRecord(NextId(UserIds(before)), GoogleInsert(email, name, googleId, avatarUrl), now)]
      ensures var found := FindUserByGoogleId(googleId);
        found.Some? && found.value.id == NextId(UserIds(before)) &&
        found.value.email == Some(email) && found.value.name == name &&
        found.value.password == None && found.value.avatarUrl == OrNull(avatarUrl)
    {
      CreatedUserIsFound(before, GoogleInsert(email, name, googleId, avatarUrl), now);
    }

    /** `dbUpdateUser`: merges the patch into the first user with that id. */
    method UpdateUser(id: int, patch: UserPatch) returns (changes: nat)
      modifies this
      ensures buttons == old(buttons)
      ensures changes == 0 <==> forall k :: 0 <= k < |old(users)| ==> old(users)[k].id != id
      ensures changes == 0 ==> users == old(users)
      ensures changes == 1 ==>
                var i := IndexOfUserId(old(users), id);
                0 <= i && users == old(users)[i := MergeUser(old(users)[i], patch)]
      ensures changes <= 1
      ensures old(Valid()) ==> Valid()
    {
      var i := IndexOfUserId(users, id);
      if i == -1 {
        return 0;
      }
      users := users[i := MergeUser(users[i], patch)];
      changes := 1;
    }

    /** `dbCreateButton`. */
    method CreateButton(input: NewButton, now: int) returns (lastId: int)
      modifies this
      ensures users == old(users)
      ensures lastId == NextId(ButtonIds(old(buttons)))
      ensures forall k :: 0 <= k < |old(buttons)| ==> old(buttons)[k].id != lastId
      ensures buttons == old(buttons) + [ButtonRecord(lastId, input, now)]
      ensures old(Valid()) ==> Valid()
    {
      lastId := NextId(ButtonIds(buttons));
      buttons := buttons + [ButtonRecord(lastId, input, now)];
    }

    /** `dbUpdateButton`: merges the patch into the first button with that
        id and owner; no other button changes. */
    method UpdateButton(id: int, userId: int, patch: ButtonPatch, now: int) returns (changes: nat)
      modifies this
      ensures users == old(users)
      ensures changes == 0 <==> forall k :: 0 <= k < |old(buttons)| ==> !Targets(old(buttons)[k], id, userId)
      ensures changes == 0 ==> buttons == old(buttons)
      ensures changes == 1 ==>
                var i := IndexOfTarget(old(buttons), id, userId);
                0 <= i && buttons == old(buttons)[i := MergeButton(old(buttons)[i], patch, now)]
      ensures changes <= 1
      ensures old(Valid()) ==> Valid()
    {
      var i := IndexOfTarget(buttons, id, userId);
      if i == -1 {
        return 0;
      }
      buttons := buttons[i := MergeButton(buttons[i], patch, now)];
      changes := 1;
    }

    /** `dbDeleteButton`: drops every button with that id and owner. */
    method DeleteButton(id: int, userId: int) returns (changes: nat)
      modifies this
      ensures users == old(users)
      ensures buttons == WithoutButton(old(buttons), id, userId)
      ensures changes == 1 <==> |buttons| < |old(buttons)|
      ensures changes == 0 <==> forall k :: 0 <= k < |old(buttons)| ==> !Targets(old(buttons)[k], id, userId)
      ensures changes == 0 ==> buttons == old(buttons)
      ensures changes <= 1
      ensures old(Valid()) && changes == 1 ==>
                exists i :: 0 <= i < |old(buttons)| && Targets(old(buttons)[i], id, userId) &&
                  buttons == old(buttons)[..i] + old(buttons)[i + 1..]
      ensures old(Valid()) ==> Valid()
    {
      var initialLength := |buttons|;
      ghost var before := buttons;
      buttons := WithoutButton(buttons, id, userId);
      changes := if initialLength != |buttons| then 1 else 0;
      if changes == 0 {
        WithoutNoTarget(before, id, userId);
      }
      if UniqueButtonIds(before) {
        FilterKeepsUniqueIds(before, (b: Button) => !Targets(b, id, userId));
      }
      if UniqueButtonIds(before) && changes == 1 {
        var i :| 0 <= i < |before| && Targets(before[i], id, userId);
        DeleteRemovesOneEntry(before, i, id, userId);
      }
    }
  }

  function OptionRow(u: Option<User>): (r: Option<UserRow>)
    ensures r.Some? <==> u.Some?
    ensures u.Some? ==> r == Some(FullRow(u.value))
  {
    if u.Some? then Some(FullRow(u.value)) else None
  }

  /** The positional parameters of `INSERT INTO users (email, password, name)`. */
  function RegisterInsert(email: string, password: string, name: string): (r: NewUser)
    ensures r.email == Some(email) && r.password == Some(password) && r.name == name
    ensures r.googleId == None && r.avatarUrl == None
  {
    NewUser(Some(email), Some(password), name, None, None)
  }

  /** The positional parameters of
      `INSERT INTO users (email, name, google_id, avatar_url)`. */
  function GoogleInsert(email: string, name: string, googleId: string, avatarUrl: Option<string>): (r: NewUser)
    ensures r.email == Some(email) && r.name == name && r.googleId == Some(googleId)
    ensures r.password == None && r.avatarUrl == avatarUrl
  {
    NewUser(Some(email), None, name, Some(googleId), avatarUrl)
  }

  /** The positional parameters of `INSERT INTO buttons (...)`; a falsy
      position already becomes bottom-right here. */
  function ButtonInsert(userId: int, name: string, linkType: string, linkUrl: Option<string>,
                        ddd: Option<string>, number: Option<string>, position: Option<string>): (r: NewButton)
    ensures r.userId == userId && r.name == name && r.linkType == linkType && r.linkUrl == linkUrl
    ensures r.whatsappDdd == ddd && r.whatsappNumber == number
    ensures Truthy(r.position)
    ensures Truthy(position) ==> r.position == position
    ensures !Truthy(position) ==> r.position == Some(DefaultPosition)
  {
    NewButton(userId, name, linkType, linkUrl, ddd, number, Some(OrElse(position, DefaultPosition)))
  }

  /** The positional parameters of `UPDATE buttons SET ... WHERE id = ? AND
      user_id = ?`: all six editable fields are set. */
  function ButtonUpdate(name: string, linkType: string, linkUrl: Option<string>,
                        ddd: Option<string>, number: Option<string>, position: string): (r: ButtonPatch)
    ensures forall b: Button, now: int {:trigger MergeButton(b, r, now)} ::
              MergeButton(b, r, now)
                == Button(b.id, b.userId, name, linkType, linkUrl, ddd, number, position, b.createdAt, now)
  {
    ButtonPatch(Some(name), Some(linkType), Some(linkUrl), Some(ddd), Some(number), Some(position))
  }
}
