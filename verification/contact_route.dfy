/** The contact endpoint: POST validates a submission and stores it, GET
    lists the newest submissions. The database table is a sequence of
    records in insertion order. */
module ContactRoute {
  import opened Js

  type Id = string

  datatype Contact = Contact(
    id: Id,
    name: string,
    email: string,
    subject: string,
    message: string,
    createdAt: int)

  type Store = seq<Contact>

  /** The fields of the POST body; `None` is a missing or null field. */
  datatype ContactRequest = ContactRequest(
    name: Option<string>,
    email: Option<string>,
    subject: Option<string>,
    message: Option<string>)

  datatype Body = Error(error: string) | Sent(message: string) | Listing(contacts: seq<Contact>)

  datatype Response = Response(code: nat, body: Body)

  /** The handler's reply together with the store it leaves behind. */
  datatype Outcome = Outcome(store: Store, response: Response)

  const MissingFields := "All fields are required"
  const SentMessage := "Message sent successfully!"
  const SendFailed := "Failed to send message"
  const FetchFailed := "Failed to fetch contacts"

  /** The number of records GET returns at most. */
  const ListLimit: nat := 50

  predicate HasRequiredFields(req: ContactRequest) {
    && Truthy(req.name)
    && Truthy(req.email)
    && Truthy(req.subject)
    && Truthy(req.message)
  }

  /** POST. `body` is `None` when the request body cannot be destructured
      (invalid JSON or `null`);
      `newId` and `now` are the id and timestamp the database assigns;
      `storeOk` is false when the write fails. */
  function Post(store: Store, body: Option<ContactRequest>, newId: Id, now: int, storeOk: bool): (r: Outcome)
    ensures body.None? ==> r == Outcome(store, Response(500, Error(SendFailed)))
    ensures body.Some? && !HasRequiredFields(body.value)
            ==> r == Outcome(store, Response(400, Error(MissingFields)))
    ensures body.Some? && HasRequiredFields(body.value) && !storeOk
            ==> r == Outcome(store, Response(500, Error(SendFailed)))
    ensures r.response.code == 200 <==> body.Some? && HasRequiredFields(body.value) && storeOk
    ensures r.response.code != 200 ==> r.store == store
    ensures r.response.code == 200 ==>
            && r.response.body == Sent(SentMessage)
            && |r.store| == |store| + 1
            && r.store[..|store|] == store
            && var c := r.store[|store|];
               && c.id == newId
               && c.name == body.value.name.value
               && c.email == body.value.email.value
               && c.subject == body.value.subject.value
               && c.message == body.value.message.value
               && c.createdAt == now
  {
    match body
    case None => Outcome(store, Response(500, Error(SendFailed)))
    case Some(req) =>
      if !HasRequiredFields(req) then Outcome(store, Response(400, Error(MissingFields)))
      else if !storeOk then Outcome(store, Response(500, Error(SendFailed)))
      else
        var c := Contact(newId, req.name.value, req.email.value, req.subject.value, req.message.value, now);
        Outcome(store + [c], Response(200, Sent(SentMessage)))
  }

  /** Creation times never increase along `s`. */
  ghost predicate NewestFirst(s: seq<Contact>) {
    forall i, j | 0 <= i < j < |s| :: s[i].createdAt >= s[j].createdAt
  }

  /** Places `c` into a newest-first sequence. */
  function Insert(c: Contact, s: seq<Contact>): (r: seq<Contact>)
    requires NewestFirst(s)
    ensures |r| == |s| + 1
    ensures forall x | x in r :: x == c || x in s
    ensures NewestFirst(r)
    ensures multiset(r) == multiset(s) + multiset{c}
  {
    if s == [] || s[0].createdAt <= c.createdAt then
      PrependNewest(c, s);
      [c] + s
    else
      var rest := Insert(c, s[1..]);
      HeadIsNewest(s[0], c, s[1..], rest);
      assert s == [s[0]] + s[1..];
      assert multiset([s[0]] + rest) == multiset{s[0]} + multiset(rest);
      [s[0]] + rest
  }

  lemma PrependNewest(c: Contact, s: seq<Contact>)
    requires NewestFirst(s)
    requires s == [] || s[0].createdAt <= c.createdAt
    ensures NewestFirst([c] + s)
  {
    var r := [c] + s;
    forall i, j | 0 <= i < j < |r| ensures r[i].createdAt >= r[j].createdAt {
      if i == 0 && j > 1 {
        assert s[0].createdAt >= s[j - 1].createdAt;
      }
    }
  }

  lemma HeadIsNewest(head: Contact, c: Contact, tail: seq<Contact>, rest: seq<Contact>)
    requires NewestFirst([head] + tail) && NewestFirst(rest)
    requires c.createdAt < head.createdAt
    requires forall x | x in rest :: x == c || x in tail
    ensures NewestFirst([head] + rest)
  {
    var s := [head] + tail;
    forall x | x in tail ensures x.createdAt <= head.createdAt {
      var j :| 0 <= j < |tail| && tail[j] == x;
      assert s[0] == head && s[j + 1] == x;
    }
  }

  /** `s` ordered by creation time, newest first. */
  function SortNewestFirst(s: seq<Contact>): (r: seq<Contact>)
    ensures |r| == |s|
    ensures NewestFirst(r)
    ensures multiset(r) == multiset(s)
  {
    if s == [] then []
    else
      assert s == [s[0]] + s[1..];
      Insert(s[0], SortNewestFirst(s[1..]))
  }

  function Min(a: nat, b: nat): nat {
    if a <= b then a else b
  }

  /** The records GET returns: the newest ones, at most `ListLimit`. */
  function Recent(store: Store): (r: seq<Contact>)
    ensures |r| == Min(ListLimit, |store|)
    ensures NewestFirst(r)
    ensures multiset(r) <= multiset(store)
    // Every record left out is no newer than every record returned.
    ensures forall c, x | c in multiset(store) - multiset(r) && x in r :: c.createdAt <= x.createdAt
  {
    var sorted := SortNewestFirst(store);
    var k := Min(ListLimit, |store|);
    LeftOutAreOlder(sorted, k);
    sorted[..k]
  }

  lemma LeftOutAreOlder(sorted: seq<Contact>, k: nat)
    requires NewestFirst(sorted) && k <= |sorted|
    ensures multiset(sorted) - multiset(sorted[..k]) == multiset(sorted[k..])
    ensures forall c, x | c in multiset(sorted[k..]) && x in sorted[..k] :: c.createdAt <= x.createdAt
  {
    assert sorted == sorted[..k] + sorted[k..];
    forall c, x | c in multiset(sorted[k..]) && x in sorted[..k]
      ensures c.createdAt <= x.createdAt
    {
      var j :| 0 <= j < |sorted[k..]| && sorted[k..][j] == c;
      var i :| 0 <= i < k && sorted[..k][i] == x;
      assert sorted[i] == x && sorted[k + j] == c;
    }
  }

  /** GET. `storeOk` is false when the read fails. */
  function List(store: Store, storeOk: bool): (r: Response)
    ensures !storeOk ==> r == Response(500, Error(FetchFailed))
    ensures storeOk ==> r.code == 200 && r.body.Listing? && r.body.contacts == Recent(store)
  {
    if storeOk then Response(200, Listing(Recent(store))) else Response(500, Error(FetchFailed))
  }

  /** The first record listed is at least as new as every stored record. */
  lemma FirstListedIsNewest(store: Store, x: Contact)
    requires x in store
    ensures |Recent(store)| > 0 && x.createdAt <= Recent(store)[0].createdAt
  {
    var sorted := SortNewestFirst(store);
    assert Recent(store)[0] == sorted[0];
    assert x in multiset(sorted);
    var i :| 0 <= i < |sorted| && sorted[i] == x;
  }

  /** A submission newer than everything stored is listed first, and it is
      listed whole. */
  lemma SubmittedIsListedFirst(store: Store, req: ContactRequest, newId: Id, now: int)
    requires HasRequiredFields(req)
    requires forall k | 0 <= k < |store| :: store[k].createdAt < now
    ensures var listed := List(Post(store, Some(req), newId, now, true).store, true).body.contacts;
            && |listed| > 0
            && listed[0] == Contact(newId, req.name.value, req.email.value, req.subject.value, req.message.value, now)
  {
    var c := Contact(newId, req.name.value, req.email.value, req.subject.value, req.message.value, now);
    var all := store + [c];
    assert c == all[|store|];
    FirstListedIsNewest(all, c);
    var r := Recent(all);
    assert r[0] in multiset(r);
    assert r[0] in all;
  }

  /** A submission with an empty name is refused and stores nothing. */
  lemma EmptyNameScenario(store: Store, newId: Id, now: int, storeOk: bool)
    ensures Post(store, Some(ContactRequest(Some(""), Some("a@b.com"), Some("Hi"), Some("Hello"))), newId, now, storeOk)
            == Outcome(store, Response(400, Error(MissingFields)))
  {
  }
}
