/** The card API's persistent state and its handlers: create, list,
    update and delete of cards (`/api/cards`) and the recording of a view
    (`/api/track`). The database is a pair of maps, users by email and
    cards by id; a card owns its social links and its views. The session's
    email, the identifier the database would generate and the clock are
    parameters of the handlers. */
module CardStore {
  import opened Zod
  import opened ZodSchemas

  datatype User = User(id: string)

  /** One row of the view table; immutable once written. */
  datatype View = View(
    id: string,
    cardId: string,
    createdAt: int,
    ipAddress: Option<string>,
    userAgent: Option<string>)

  datatype Card = Card(
    userId: string,
    data: CardData,
    socialLinks: seq<SocialLink>,
    views: seq<View>)

  /** What the create and update handlers answer with: the card row with
      its social links (views are not included). */
  datatype CardReply = CardReply(id: string, userId: string, data: CardData, socialLinks: seq<SocialLink>)

  /** A handler's answer: a JSON body with status 200, or an error status
      with the `error` message. */
  datatype Response<T> = Ok(body: T) | Fail(status: int, message: string)

  const Unauthorized := "Non autorisé"
  const UserNotFound := "Utilisateur non trouvé"
  const CardNotFound := "Carte non trouvée"
  const ServerError := "Erreur serveur"

  function Reply(id: string, c: Card): CardReply
  {
    CardReply(id, c.userId, c.data, c.socialLinks)
  }

  /** `session?.user?.email` is truthy: present and not empty. */
  predicate SignedIn(session: Option<string>)
  {
    session.Some? && session.value != ""
  }

  // ---------------------------------------------------------------------
  // Ownership
  // ---------------------------------------------------------------------

  /** The steps the update and delete handlers take after validation:
      find the user, look the card up, compare owners. */
  datatype Access = UserMissing | BadKey | CardMissing | NotOwner | Owner

  /** The card key the database accepts: a string `id`. Any other value
      makes the lookup throw. */
  function CardKey(v: Json): (k: Option<string>)
    ensures k.Some? <==> v.JString?
    ensures k.Some? ==> k.value == v.s
  {
    if v.JString? then Some(v.s) else None
  }

  function Authorize(users: map<string, User>, cards: map<string, Card>, email: string, id: Option<string>): (a: Access)
    ensures a == Owner <==>
      email in users && id.Some? && id.value in cards && cards[id.value].userId == users[email].id
    ensures a == UserMissing <==> email !in users
    ensures a == BadKey ==> email in users && id.None?
    ensures a == CardMissing ==> email in users && id.Some? && id.value !in cards
    ensures a == NotOwner ==>
      email in users && id.Some? && id.value in cards && cards[id.value].userId != users[email].id
  {
    if email !in users then UserMissing
    else if id.None? then BadKey
    else if id.value !in cards then CardMissing
    else if cards[id.value].userId != users[email].id then NotOwner
    else Owner
  }

  /** The answer to a refused access. */
  function Denial<T>(a: Access): (r: Response<T>)
    requires a != Owner
    ensures r.Fail?
    ensures r.status == 403 <==> a == NotOwner
    ensures r.status == 404 <==> a == UserMissing || a == CardMissing
    ensures a == UserMissing ==> r == Fail(404, UserNotFound)
    ensures a == BadKey ==> r == Fail(500, ServerError)
    ensures a == CardMissing ==> r == Fail(404, CardNotFound)
    ensures a == NotOwner ==> r == Fail(403, Unauthorized)
  {
    match a
    case UserMissing => Fail(404, UserNotFound)
    case BadKey => Fail(500, ServerError)
    case CardMissing => Fail(404, CardNotFound)
    case NotOwner => Fail(403, Unauthorized)
  }

  /** The ids of the cards whose owner is the user with that email. */
  function OwnedIds(users: map<string, User>, cards: map<string, Card>, email: string): set<string>
  {
    set id | id in cards && email in users && cards[id].userId == users[email].id
  }

  // ---------------------------------------------------------------------
  // Partial update
  // ---------------------------------------------------------------------

  function Pick<T>(o: Option<T>, otherwise: T): T
  {
    if o.Some? then o.value else otherwise
  }

  /** The scalar columns after `prisma.card.update` with the present fields. */
  function PatchData(d: CardData, p: CardPatch): CardData
  {
    CardData(Pick(p.name, d.name), Pick(p.position, d.position), Pick(p.company, d.company),
             Pick(p.email, d.email),
             if p.phone.Some? then p.phone else d.phone,
             if p.website.Some? then p.website else d.website,
             if p.logo.Some? then p.logo else d.logo,
             Pick(p.theme, d.theme))
  }

  /** The card after a successful update. */
  function ApplyPatch(c: Card, p: CardPatch): Card
  {
    c.(data := PatchData(c.data, p), socialLinks := Pick(p.socialLinks, c.socialLinks))
  }

  /** An update writes exactly the fields present in the patch; a present
      link list, even an empty one, replaces the old list; the owner and
      the views are never touched. */
  lemma PatchTouchesOnlyPresentFields(c: Card, p: CardPatch)
    ensures var r := ApplyPatch(c, p);
      && r.userId == c.userId && r.views == c.views
      && r.data.name == (if p.name.Some? then p.name.value else c.data.name)
      && r.data.position == (if p.position.Some? then p.position.value else c.data.position)
      && r.data.company == (if p.company.Some? then p.company.value else c.data.company)
      && r.data.email == (if p.email.Some? then p.email.value else c.data.email)
      && r.data.phone == (if p.phone.Some? then p.phone else c.data.phone)
      && r.data.website == (if p.website.Some? then p.website else c.data.website)
      && r.data.logo == (if p.logo.Some? then p.logo else c.data.logo)
      && r.data.theme == (if p.theme.Some? then p.theme.value else c.data.theme)
      && r.socialLinks == (if p.socialLinks.Some? then p.socialLinks.value else c.socialLinks)
  {
  }

  /** An update body that names no card key leaves the card as it was. */
  lemma EmptyBodyUpdatesNothing(c: Card, fields: map<string, Json>, checks: Checks)
    requires forall k :: k in fields ==> k !in CardKeys
    ensures UpdateCard(JObject(fields), checks).Success?
    ensures ApplyPatch(c, UpdateCard(JObject(fields), checks).data) == c
  {
    EmptyUpdate(fields, checks);
  }

  // ---------------------------------------------------------------------
  // Views
  // ---------------------------------------------------------------------

  predicate NewestFirst(vs: seq<View>)
  {
    forall i, j :: 0 <= i < j < |vs| ==> vs[i].createdAt >= vs[j].createdAt
  }

  function InsertNewestFirst(v: View, vs: seq<View>): (r: seq<View>)
    requires NewestFirst(vs)
    ensures NewestFirst(r)
    ensures multiset(r) == multiset(vs) + multiset{v}
    ensures |r| == |vs| + 1 && (r[0] == v || (vs != [] && r[0] == vs[0]))
    decreases |vs|
  {
    if vs == [] || v.createdAt >= vs[0].createdAt then [v] + vs
    else
      var rest := InsertNewestFirst(v, vs[1..]);
      assert vs == [vs[0]] + vs[1..];
      assert rest[0].createdAt <= vs[0].createdAt;
      [vs[0]] + rest
  }

  /** `orderBy: { createdAt: 'desc' }`: the same views, newest first
      (the order among equal timestamps is left open). */
  function SortNewestFirst(vs: seq<View>): (r: seq<View>)
    ensures NewestFirst(r)
    ensures multiset(r) == multiset(vs)
    decreases |vs|
  {
    if vs == [] then []
    else
      assert vs == [vs[0]] + vs[1..];
      InsertNewestFirst(vs[0], SortNewestFirst(vs[1..]))
  }

  /** The card with one more view row. */
  function WithView(c: Card, v: View): Card
  {
    c.(views := c.views + [v])
  }

  /** The card after one successful tracking call per view, in order. */
  function WithViews(c: Card, vs: seq<View>): Card
    decreases |vs|
  {
    if vs == [] then c else WithViews(WithView(c, vs[0]), vs[1..])
  }

  /** N successful tracking calls append exactly those N views, in call
      order, and change nothing else about the card. */
  lemma {:induction false} ViewsAccumulate(c: Card, vs: seq<View>)
    ensures WithViews(c, vs) == c.(views := c.views + vs)
    ensures |WithViews(c, vs).views| == |c.views| + |vs|
    decreases |vs|
  {
    if vs != [] {
      ViewsAccumulate(WithView(c, vs[0]), vs[1..]);
      assert c.views + [vs[0]] + vs[1..] == c.views + vs;
    }
  }

  /** `request.headers.get(name)`, with header names in lower case. */
  function Header(headers: map<string, string>, name: string): Option<string>
  {
    if name in headers then Some(headers[name]) else None
  }

  /** JavaScript's `a || b` on an optional string: `null` and `''` fall through. */
  function OrElse(a: Option<string>, b: Option<string>): (r: Option<string>)
    ensures a.Some? && a.value != "" ==> r == a
    ensures !(a.Some? && a.value != "") ==> r == b
  {
    if a.Some? && a.value != "" then a else b
  }

  /** `x-forwarded-for || x-real-ip || undefined`. */
  function ClientIp(headers: map<string, string>): (r: Option<string>)
    ensures r.Some? ==> r.value != ""
    ensures var xff := Header(headers, "x-forwarded-for"); xff.Some? && xff.value != "" ==> r == xff
    ensures var xff := Header(headers, "x-forwarded-for"); var xri := Header(headers, "x-real-ip");
      !(xff.Some? && xff.value != "") && xri.Some? && xri.value != "" ==> r == xri
    ensures var xff := Header(headers, "x-forwarded-for"); var xri := Header(headers, "x-real-ip");
      !(xff.Some? && xff.value != "") && !(xri.Some? && xri.value != "") ==> r == None
  {
    OrElse(OrElse(Header(headers, "x-forwarded-for"), Header(headers, "x-real-ip")), None)
  }

  /** `user-agent || undefined`. */
  function UserAgent(headers: map<string, string>): (r: Option<string>)
    ensures r.Some? <==> "user-agent" in headers && headers["user-agent"] != ""
    ensures r.Some? ==> r.value == headers["user-agent"]
  {
    OrElse(Header(headers, "user-agent"), None)
  }

  // ---------------------------------------------------------------------
  // The store
  // ---------------------------------------------------------------------

  function UserIds(users: map<string, User>): set<string>
  {
    set e | e in users :: users[e].id
  }

  /** The user table's primary key: no two emails share an id. */
  predicate UniqueUserIds(users: map<string, User>)
  {
    forall e1, e2 :: e1 in users && e2 in users && users[e1].id == users[e2].id ==> e1 == e2
  }

  predicate ViewsBelongTo(vs: seq<View>, id: string)
  {
    forall i :: 0 <= i < |vs| ==> vs[i].cardId == id
  }

  class Store {
    var users: map<string, User>
    var cards: map<string, Card>

    /** User ids are unique, every card belongs to an existing user, and
        every view of a card refers to that card. */
    ghost predicate Valid()
      reads this
    {
      && UniqueUserIds(users)
      && forall id :: id in cards ==>
           cards[id].userId in UserIds(users) && ViewsBelongTo(cards[id].views, id)
    }

    constructor (users: map<string, User>)
      requires UniqueUserIds(users)
      ensures Valid()
      ensures this.users == users && cards == map[]
    {
      this.users := users;
      cards := map[];
    }

    /** `POST /api/cards`. */
    method Post(session: Option<string>, body: Json, checks: Checks, newId: string)
      returns (res: Response<CardReply>)
      requires Valid()
      requires newId !in cards
      modifies this
      ensures Valid() && users == old(users)
      ensures res.Fail? ==> cards == old(cards)
      ensures !SignedIn(session) ==> res == Fail(401, Unauthorized)
      ensures SignedIn(session) && CreateCard(body, checks).Failure? ==>
        res == Fail(400, CreateCard(body, checks).issues[0].message)
      ensures SignedIn(session) && CreateCard(body, checks).Success? && session.value !in users ==>
        res == Fail(404, UserNotFound)
      ensures SignedIn(session) && CreateCard(body, checks).Success? && session.value in users ==>
        var input := CreateCard(body, checks).data;
        var card := Card(users[session.value].id, input.card, input.socialLinks, []);
        cards == old(cards)[newId := card] && res == Ok(Reply(newId, card))
    {
      if !SignedIn(session) {
        return Fail(401, Unauthorized);
      }
      var parsed := CreateCard(body, checks);
      if parsed.Failure? {
        return Fail(400, parsed.issues[0].message);
      }
      var email := session.value;
      if email !in users {
        return Fail(404, UserNotFound);
      }
      var user := users[email];
      var card := Card(user.id, parsed.data.card, parsed.data.socialLinks, []);
      cards := cards[newId := card];
      res := Ok(Reply(newId, card));
    }

    /** `GET /api/cards`: the signed-in user's cards, each with its views
        newest first. */
    method List(session: Option<string>) returns (res: Response<map<string, Card>>)
      requires Valid()
      ensures res.Ok? <==> SignedIn(session)
      ensures !res.Ok? ==> res == Fail(401, Unauthorized)
      ensures res.Ok? ==> res.body.Keys == OwnedIds(users, cards, session.value)
      ensures res.Ok? ==> forall id :: id in res.body ==>
        && id in cards
        && res.body[id].userId == cards[id].userId
        && res.body[id].data == cards[id].data
        && res.body[id].socialLinks == cards[id].socialLinks
        && NewestFirst(res.body[id].views)
        && multiset(res.body[id].views) == multiset(cards[id].views)
    {
      if !SignedIn(session) {
        return Fail(401, Unauthorized);
      }
      var email := session.value;
      var owned := map id | id in cards && email in users && cards[id].userId == users[email].id
        :: cards[id].(views := SortNewestFirst(cards[id].views));
      res := Ok(owned);
    }

    /** `PUT /api/cards`: the body's `id` names the card, the other keys
        go through the update schema. */
    method Put(session: Option<string>, body: map<string, Json>, checks: Checks)
      returns (res: Response<CardReply>)
      requires Valid()
      modifies this
      ensures Valid() && users == old(users)
      ensures res.Fail? ==> cards == old(cards)
      ensures !SignedIn(session) ==> res == Fail(401, Unauthorized)
      ensures SignedIn(session) && UpdateCard(JObject(body - {"id"}), checks).Failure? ==>
        res == Fail(400, UpdateCard(JObject(body - {"id"}), checks).issues[0].message)
      ensures SignedIn(session) && UpdateCard(JObject(body - {"id"}), checks).Success? ==>
        var access := Authorize(old(users), old(cards), session.value, CardKey(Get(body, "id")));
        && (access != Owner ==> res == Denial(access))
        && (access == Owner ==>
              var id := Get(body, "id").s;
              var patch := UpdateCard(JObject(body - {"id"}), checks).data;
              cards == old(cards)[id := ApplyPatch(old(cards)[id], patch)]
              && res == Ok(Reply(id, cards[id])))
    {
      if !SignedIn(session) {
        return Fail(401, Unauthorized);
      }
      var parsed := UpdateCard(JObject(body - {"id"}), checks);
      if parsed.Failure? {
        return Fail(400, parsed.issues[0].message);
      }
      var access := Authorize(users, cards, session.value, CardKey(Get(body, "id")));
      if access != Owner {
        return Denial(access);
      }
      var id := Get(body, "id").s;
      var updated := Update(id, parsed.data);
      res := Ok(Reply(id, updated));
    }

    /** The writes of a permitted update: when links are given, the card's
        existing links are deleted first; then the present scalar fields
        are written and the given links created. */
    method Update(id: string, patch: CardPatch) returns (updated: Card)
      requires Valid() && id in cards
      modifies this
      ensures Valid() && users == old(users)
      ensures updated == ApplyPatch(old(cards)[id], patch)
      ensures cards == old(cards)[id := updated]
    {
      if patch.socialLinks.Some? {
        // deleteMany
        cards := cards[id := cards[id].(socialLinks := [])];
      }
      // update, with a nested create of the given links
      var card := cards[id];
      updated := card.(data := PatchData(card.data, patch),
                       socialLinks := card.socialLinks + Pick(patch.socialLinks, []));
      assert updated.socialLinks == Pick(patch.socialLinks, old(cards)[id].socialLinks);
      cards := cards[id := updated];
    }

    /** `DELETE /api/cards?id=`: removes the card with its links and views. */
    method Delete(session: Option<string>, id: Option<string>) returns (res: Response<bool>)
      requires Valid()
      modifies this
      ensures Valid() && users == old(users)
      ensures res.Fail? ==> cards == old(cards)
      ensures !SignedIn(session) ==> res == Fail(401, Unauthorized)
      ensures SignedIn(session) && !(id.Some? && id.value != "") ==> res == Fail(400, CardIdRequired)
      ensures SignedIn(session) && id.Some? && id.value != "" ==>
        var access := Authorize(old(users), old(cards), session.value, id);
        && access != BadKey
        && (access != Owner ==> res == Denial(access))
        && (access == Owner ==> res == Ok(true) && cards == old(cards) - {id.value})
    {
      if !SignedIn(session) {
        return Fail(401, Unauthorized);
      }
      if !(id.Some? && id.value != "") {
        return Fail(400, CardIdRequired);
      }
      var access := Authorize(users, cards, session.value, id);
      if access != Owner {
        return Denial(access);
      }
      cards := cards - {id.value};
      res := Ok(true);
    }

    /** `POST /api/track`: no session is consulted. */
    method Track(body: Json, headers: map<string, string>, viewId: string, now: int)
      returns (res: Response<View>)
      requires Valid()
      modifies this
      ensures Valid() && users == old(users)
      ensures res.Fail? ==> cards == old(cards)
      ensures TrackView(body).Failure? ==> res == Fail(400, TrackView(body).issues[0].message)
      ensures TrackView(body).Success? && TrackView(body).data !in old(cards) ==>
        res == Fail(404, CardNotFound)
      ensures TrackView(body).Success? && TrackView(body).data in old(cards) ==>
        var id := TrackView(body).data;
        && res == Ok(View(viewId, id, now, ClientIp(headers), UserAgent(headers)))
        && cards == old(cards)[id := WithView(old(cards)[id], res.body)]
    {
      var parsed := TrackView(body);
      if parsed.Failure? {
        return Fail(400, parsed.issues[0].message);
      }
      var cardId := parsed.data;
      if cardId !in cards {
        return Fail(404, CardNotFound);
      }
      var view := View(viewId, cardId, now, ClientIp(headers), UserAgent(headers));
      cards := cards[cardId := WithView(cards[cardId], view)];
      res := Ok(view);
    }
  }
}
