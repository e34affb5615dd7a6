/**
 The message list of a chat thread, and the updaters that realtime events and the user's
 own requests apply to it.
 */
module ChatThread {
  import opened Prelude

  type MessageId = int

  datatype Message = Message(
    id: MessageId,
    sequence: int,
    body: Option<string>,
    attachments: seq<string>,
    isEdited: bool,
    isDeleted: bool,
    updatedAt: string)

  /** `Created` is both the realtime event and the answer to the user's own submission. */
  datatype Update =
    | Created(message: Message)
    | Edited(id: MessageId, body: Option<string>, updatedAt: Option<string>)
    | Deleted(id: MessageId, updatedAt: Option<string>)
    | EditAnswered(message: Message)
    | DeleteAnswered(id: MessageId)

  // --------------------------------------------------------------------- sorting

  /** Puts a message behind all those that do not follow it. */
  function Insert(sorted: seq<Message>, m: Message): seq<Message> {
    if sorted == [] || sorted[|sorted| - 1].sequence <= m.sequence then sorted + [m]
    else Insert(sorted[..|sorted| - 1], m) + [sorted[|sorted| - 1]]
  }

  /** The stable sort by sequence. */
  function Sort(list: seq<Message>): seq<Message> {
    if list == [] then [] else Insert(Sort(list[..|list| - 1]), list[|list| - 1])
  }

  ghost predicate Ascending(list: seq<Message>) {
    forall i, j :: 0 <= i < j < |list| ==> list[i].sequence <= list[j].sequence
  }

  /** Insertion cuts the list in two: what does not follow the message, and what does. */
  lemma {:induction false} InsertCuts(sorted: seq<Message>, m: Message) returns (k: nat)
    requires Ascending(sorted)
    ensures k <= |sorted| && Insert(sorted, m) == sorted[..k] + [m] + sorted[k..]
    ensures forall i :: 0 <= i < k ==> sorted[i].sequence <= m.sequence
    ensures forall i :: k <= i < |sorted| ==> sorted[i].sequence > m.sequence
  {
    if sorted == [] || sorted[|sorted| - 1].sequence <= m.sequence {
      k := |sorted|;
      assert sorted[..k] == sorted && sorted[k..] == [];
    } else {
      var n := |sorted| - 1;
      k := InsertCuts(sorted[..n], m);
      assert sorted[..n][..k] == sorted[..k] && sorted[..n][k..] + [sorted[n]] == sorted[k..];
    }
  }

  lemma CutAscends(sorted: seq<Message>, m: Message, k: nat)
    requires Ascending(sorted) && k <= |sorted|
    requires forall i :: 0 <= i < k ==> sorted[i].sequence <= m.sequence
    requires forall i :: k <= i < |sorted| ==> sorted[i].sequence > m.sequence
    ensures Ascending(sorted[..k] + [m] + sorted[k..])
  {
  }

  lemma CutPermutes<T>(s: seq<T>, x: T, k: nat)
    requires k <= |s|
    ensures multiset(s[..k] + [x] + s[k..]) == multiset(s) + multiset{x}
  {
    assert s == s[..k] + s[k..];
  }

  lemma InsertSorts(sorted: seq<Message>, m: Message)
    requires Ascending(sorted)
    ensures Ascending(Insert(sorted, m)) && multiset(Insert(sorted, m)) == multiset(sorted) + multiset{m}
  {
    var k := InsertCuts(sorted, m);
    CutAscends(sorted, m, k);
    CutPermutes(sorted, m, k);
  }

  /** The sort is one: ascending, and a permutation. */
  lemma {:induction false} SortSorts(list: seq<Message>)
    ensures Ascending(Sort(list)) && multiset(Sort(list)) == multiset(list)
  {
    if list != [] {
      hide Insert, Ascending;
      var n := |list| - 1;
      SortSorts(list[..n]);
      InsertSorts(Sort(list[..n]), list[n]);
      assert list == list[..n] + [list[n]];
      assert multiset(list) == multiset(list[..n]) + multiset{list[n]};
    }
  }

  /** The messages with one sequence number, in their order. */
  function OfSequence(list: seq<Message>, v: int): seq<Message> {
    if list == [] then []
    else
      var last := list[|list| - 1];
      OfSequence(list[..|list| - 1], v) + if last.sequence == v then [last] else []
  }

  lemma OfSequenceMore(list: seq<Message>, m: Message, v: int)
    ensures OfSequence(list + [m], v) == OfSequence(list, v) + if m.sequence == v then [m] else []
  {
    assert (list + [m])[..|list|] == list;
  }

  lemma {:induction false} InsertIsStable(sorted: seq<Message>, m: Message, v: int)
    ensures OfSequence(Insert(sorted, m), v) == OfSequence(sorted, v) + if m.sequence == v then [m] else []
  {
    if sorted == [] || sorted[|sorted| - 1].sequence <= m.sequence {
      OfSequenceMore(sorted, m, v);
    } else {
      var n := |sorted| - 1;
      InsertIsStable(sorted[..n], m, v);
      assert Insert(sorted, m) == Insert(sorted[..n], m) + [sorted[n]];
      OfSequenceMore(Insert(sorted[..n], m), sorted[n], v);
    }
  }

  /** And stable: messages with the same number keep their order. */
  lemma {:induction false} SortIsStable(list: seq<Message>, v: int)
    ensures OfSequence(Sort(list), v) == OfSequence(list, v)
  {
    if list != [] {
      var n := |list| - 1;
      SortIsStable(list[..n], v);
      InsertIsStable(Sort(list[..n]), list[n], v);
    }
  }

  /** Sorting does nothing to a list in order. */
  lemma {:induction false} SortAscending(list: seq<Message>)
    requires Ascending(list)
    ensures Sort(list) == list
  {
    if list != [] {
      var n := |list| - 1;
      SortAscending(list[..n]);
      assert n > 0 ==> list[n - 1].sequence <= list[n].sequence;
      assert list == list[..n] + [list[n]];
    }
  }

  // -------------------------------------------------------------------- updaters

  predicate Contains(list: seq<Message>, id: MessageId) {
    exists i :: 0 <= i < |list| && list[i].id == id
  }

  function Add(list: seq<Message>, m: Message): seq<Message> {
    if Contains(list, m.id) then list else Sort(list + [m])
  }

  /** What an update makes of one message of the list. */
  function Change(item: Message, u: Update): Message {
    match u
    case Created(_) => item
    case Edited(id, body, updatedAt) =>
      if item.id != id then item
      else item.(body := if body.Some? then body else item.body,
                 isEdited := true,
                 updatedAt := if updatedAt.Some? then updatedAt.value else item.updatedAt)
    case Deleted(id, updatedAt) =>
      if item.id != id then item
      else item.(body := None, attachments := [], isDeleted := true,
                 updatedAt := if updatedAt.Some? then updatedAt.value else item.updatedAt)
    case EditAnswered(m) => if item.id != m.id then item else m
    case DeleteAnswered(id) => if item.id != id then item else item.(body := None, attachments := [], isDeleted := true)
  }

  function Apply(list: seq<Message>, u: Update): seq<Message> {
    if u.Created? then Add(list, u.message)
    else seq(|list|, i requires 0 <= i < |list| => Change(list[i], u))
  }

  function ApplyAll(list: seq<Message>, updates: seq<Update>): seq<Message> {
    if updates == [] then list else Apply(ApplyAll(list, updates[..|updates| - 1]), updates[|updates| - 1])
  }

  function HighestSequence(list: seq<Message>): int {
    if list == [] then 0
    else
      var before, last := HighestSequence(list[..|list| - 1]), list[|list| - 1].sequence;
      if last > before then last else before
  }

  // ------------------------------------------------------------------ convergence

  type Numbering = MessageId -> int

  /** The server gives every message a sequence number of its own. */
  ghost predicate Numbered(number: Numbering) {
    forall a, b :: number(a) == number(b) ==> a == b
  }

  ghost predicate Follows(u: Update, number: Numbering) {
    match u
    case Created(m) => m.sequence == number(m.id)
    case EditAnswered(m) => m.sequence == number(m.id)
    case _ => true
  }

  ghost predicate AllFollow(updates: seq<Update>, number: Numbering) {
    forall i :: 0 <= i < |updates| ==> Follows(updates[i], number)
  }

  /** Numbered as the server says, in strictly ascending order. */
  ghost predicate ListOk(list: seq<Message>, number: Numbering) {
    && (forall i :: 0 <= i < |list| ==> list[i].sequence == number(list[i].id))
    && (forall i, j :: 0 <= i < j < |list| ==> list[i].sequence < list[j].sequence)
  }

  function IdsOf(list: seq<Message>): seq<MessageId> {
    seq(|list|, i requires 0 <= i < |list| => list[i].id)
  }

  function IdSet(list: seq<Message>): set<MessageId> {
    set i | 0 <= i < |list| :: list[i].id
  }

  function CreatedIds(updates: seq<Update>): set<MessageId> {
    set i | 0 <= i < |updates| && updates[i].Created? :: updates[i].message.id
  }

  lemma IdsOfParts(a: seq<Message>, b: seq<Message>)
    ensures IdSet(a + b) == IdSet(a) + IdSet(b)
  {
    forall id | id in IdSet(a) + IdSet(b)
      ensures id in IdSet(a + b)
    {
      if id in IdSet(a) {
        var i :| 0 <= i < |a| && a[i].id == id;
        assert (a + b)[i].id == id;
      } else {
        var i :| 0 <= i < |b| && b[i].id == id;
        assert (a + b)[|a| + i].id == id;
      }
    }
  }

  lemma IdsOfOne(m: Message)
    ensures IdSet([m]) == {m.id}
  {
    assert [m][0].id in IdSet([m]);
  }

  lemma NoIdsNoMessages(list: seq<Message>)
    ensures IdSet(list) == {} <==> list == []
  {
    if list != [] {
      assert list[0].id in IdSet(list);
    }
  }

  lemma CutOk(list: seq<Message>, m: Message, k: nat, number: Numbering)
    requires Numbered(number) && ListOk(list, number) && m.sequence == number(m.id) && !Contains(list, m.id) && k <= |list|
    requires forall i :: 0 <= i < k ==> list[i].sequence <= m.sequence
    requires forall i :: k <= i < |list| ==> list[i].sequence > m.sequence
    ensures ListOk(list[..k] + [m] + list[k..], number)
    ensures IdSet(list[..k] + [m] + list[k..]) == IdSet(list) + {m.id}
  {
    forall i | 0 <= i < k
      ensures list[i].sequence < m.sequence
    {
      assert list[i].id != m.id;
    }
    IdsOfParts(list[..k] + [m], list[k..]);
    IdsOfParts(list[..k], [m]);
    IdsOfParts(list[..k], list[k..]);
    IdsOfOne(m);
    assert list == list[..k] + list[k..];
  }

  lemma AddKeepsOk(list: seq<Message>, m: Message, number: Numbering)
    requires Numbered(number) && ListOk(list, number) && m.sequence == number(m.id)
    ensures ListOk(Add(list, m), number) && IdSet(Add(list, m)) == IdSet(list) + {m.id}
  {
    if Contains(list, m.id) {
      assert m.id in IdSet(list);
    } else {
      SortAscending(list);
      assert (list + [m])[..|list|] == list;
      var k := InsertCuts(list, m);
      CutOk(list, m, k, number);
    }
  }

  lemma ApplyKeepsOk(list: seq<Message>, u: Update, number: Numbering)
    requires Numbered(number) && ListOk(list, number) && Follows(u, number)
    ensures ListOk(Apply(list, u), number)
    ensures IdSet(Apply(list, u)) == IdSet(list) + if u.Created? then {u.message.id} else {}
  {
    if u.Created? {
      AddKeepsOk(list, u.message, number);
    } else {
      var list' := Apply(list, u);
      assert forall i :: 0 <= i < |list| ==> list'[i].id == list[i].id && list'[i].sequence == list[i].sequence;
      SameIdSet(list, list');
    }
  }

  lemma SameIdSet(a: seq<Message>, b: seq<Message>)
    requires |a| == |b| && forall i :: 0 <= i < |a| ==> b[i].id == a[i].id
    ensures IdSet(a) == IdSet(b)
  {
    forall i | 0 <= i < |a|
      ensures a[i].id in IdSet(b) && b[i].id in IdSet(a)
    {
      assert b[i].id in IdSet(b) && a[i].id in IdSet(a);
    }
  }

  lemma OneMoreCreated(updates: seq<Update>, u: Update)
    ensures CreatedIds(updates + [u]) == CreatedIds(updates) + if u.Created? then {u.message.id} else {}
  {
    var all := updates + [u];
    forall id | id in CreatedIds(updates)
      ensures id in CreatedIds(all)
    {
      var i :| 0 <= i < |updates| && updates[i].Created? && updates[i].message.id == id;
      assert all[i] == updates[i];
    }
    assert u.Created? ==> all[|updates|].Created? && all[|updates|].message.id in CreatedIds(all);
  }

  lemma {:induction false} UpdatesKeepOk(list: seq<Message>, updates: seq<Update>, number: Numbering)
    requires Numbered(number) && ListOk(list, number) && AllFollow(updates, number)
    ensures ListOk(ApplyAll(list, updates), number)
    ensures IdSet(ApplyAll(list, updates)) == IdSet(list) + CreatedIds(updates)
  {
    if updates != [] {
      var n := |updates| - 1;
      UpdatesKeepOk(list, updates[..n], number);
      ApplyKeepsOk(ApplyAll(list, updates[..n]), updates[n], number);
      OneMoreCreated(updates[..n], updates[n]);
      assert updates == updates[..n] + [updates[n]];
    }
  }

  /** A strictly ascending list is determined by its set of ids. */
  lemma {:induction false} IdsDetermineList(a: seq<Message>, b: seq<Message>, number: Numbering)
    requires Numbered(number) && ListOk(a, number) && ListOk(b, number) && IdSet(a) == IdSet(b)
    ensures IdsOf(a) == IdsOf(b)
  {
    hide IdsOf;
    NoIdsNoMessages(a);
    NoIdsNoMessages(b);
    if a != [] {
      var x, y := a[|a| - 1], b[|b| - 1];
      assert x.id in IdSet(b) && y.id in IdSet(a);
      var i :| 0 <= i < |b| && b[i].id == x.id;
      var j :| 0 <= j < |a| && a[j].id == y.id;
      assert x.sequence <= y.sequence <= x.sequence;
      DropLast(a, number);
      DropLast(b, number);
      IdsDetermineList(a[..|a| - 1], b[..|b| - 1], number);
      IdsOfLast(a);
      IdsOfLast(b);
    }
  }

  lemma IdsOfLast(a: seq<Message>)
    requires a != []
    ensures IdsOf(a) == IdsOf(a[..|a| - 1]) + [a[|a| - 1].id]
  {
  }

  lemma DropLast(a: seq<Message>, number: Numbering)
    requires a != [] && ListOk(a, number)
    ensures ListOk(a[..|a| - 1], number) && IdSet(a[..|a| - 1]) == IdSet(a) - {a[|a| - 1].id}
  {
    var n := |a| - 1;
    forall i | 0 <= i < n
      ensures a[i].id != a[n].id
    {
    }
    assert forall i :: 0 <= i < n ==> a[..n][i] == a[i];
  }

  /** Two clients that saw the same messages created, in whatever order, repeated however
      often, mixed with any edits and deletes, list the same ids in the same order. */
  lemma {:induction false} ListsConverge(list: seq<Message>, a: seq<Update>, b: seq<Update>, number: Numbering)
    requires Numbered(number) && ListOk(list, number) && AllFollow(a, number) && AllFollow(b, number)
    requires CreatedIds(a) == CreatedIds(b)
    ensures IdsOf(ApplyAll(list, a)) == IdsOf(ApplyAll(list, b))
    ensures ListOk(ApplyAll(list, a), number) && ListOk(ApplyAll(list, b), number)
  {
    UpdatesKeepOk(list, a, number);
    UpdatesKeepOk(list, b, number);
    IdsDetermineList(ApplyAll(list, a), ApplyAll(list, b), number);
  }

  // ------------------------------------------------------------ highest sequence

  lemma {:induction false} HighestOf(list: seq<Message>)
    ensures HighestSequence(list) >= 0
    ensures forall i :: 0 <= i < |list| ==> list[i].sequence <= HighestSequence(list)
    ensures HighestSequence(list) == 0 || exists i :: 0 <= i < |list| && list[i].sequence == HighestSequence(list)
  {
    if list != [] {
      var n := |list| - 1;
      HighestOf(list[..n]);
      assert forall i :: 0 <= i < n ==> list[..n][i] == list[i];
      assert HighestSequence(list) == HighestSequence(list[..n]) || list[n].sequence == HighestSequence(list);
    }
  }

  /** The read marker never goes back. */
  lemma HighestNeverDrops(list: seq<Message>, u: Update, number: Numbering)
    requires Numbered(number) && ListOk(list, number) && Follows(u, number)
    ensures HighestSequence(Apply(list, u)) >= HighestSequence(list)
  {
    ApplyKeepsOk(list, u, number);
    var list' := Apply(list, u);
    HighestOf(list);
    HighestOf(list');
    if HighestSequence(list) != 0 {
      var i :| 0 <= i < |list| && list[i].sequence == HighestSequence(list);
      assert list[i].id in IdSet(list');
      var j :| 0 <= j < |list'| && list'[j].id == list[i].id;
      assert list'[j].sequence == list[i].sequence;
    }
  }

  // ------------------------------------------------------------- whole messages

  function SubjectOf(u: Update): MessageId {
    match u
    case Created(m) => m.id
    case Edited(id, _, _) => id
    case Deleted(id, _) => id
    case EditAnswered(m) => m.id
    case DeleteAnswered(id) => id
  }

  /** The updates about one message, in their order. */
  function About(updates: seq<Update>, id: MessageId): seq<Update> {
    if updates == [] then []
    else
      var last := updates[|updates| - 1];
      About(updates[..|updates| - 1], id) + if SubjectOf(last) == id then [last] else []
  }

  /** What an update about a message makes of it, if it is listed and if it is not. */
  function Live(item: Option<Message>, u: Update): Option<Message> {
    match item
    case None => if u.Created? then Some(u.message) else None
    case Some(m) => Some(Change(m, u))
  }

  function Life(item: Option<Message>, updates: seq<Update>): Option<Message> {
    if updates == [] then item else Live(Life(item, updates[..|updates| - 1]), updates[|updates| - 1])
  }

  function Lookup(list: seq<Message>, id: MessageId): Option<Message> {
    if list == [] then None
    else if list[|list| - 1].id == id then Some(list[|list| - 1])
    else Lookup(list[..|list| - 1], id)
  }

  lemma {:induction false} LookupFinds(list: seq<Message>, id: MessageId)
    ensures Lookup(list, id).Some? <==> Contains(list, id)
    ensures Lookup(list, id).Some? ==> Lookup(list, id).value in list && Lookup(list, id).value.id == id
  {
    if list != [] {
      var n := |list| - 1;
      LookupFinds(list[..n], id);
      assert forall i :: 0 <= i < n ==> list[..n][i] == list[i];
    }
  }

  lemma LookupIs(list: seq<Message>, id: MessageId, m: Message, number: Numbering)
    requires ListOk(list, number) && m in list && m.id == id
    ensures Lookup(list, id) == Some(m)
  {
    LookupFinds(list, id);
    var i :| 0 <= i < |list| && list[i] == m;
    var x := Lookup(list, id).value;
    var j :| 0 <= j < |list| && list[j] == x;
    assert list[i].sequence == list[j].sequence;
  }

  lemma LookupAfter(list: seq<Message>, u: Update, id: MessageId, number: Numbering)
    requires Numbered(number) && ListOk(list, number) && Follows(u, number)
    ensures Lookup(Apply(list, u), id) == if SubjectOf(u) == id then Live(Lookup(list, id), u) else Lookup(list, id)
  {
    var list' := Apply(list, u);
    ApplyKeepsOk(list, u, number);
    LookupFinds(list, id);
    LookupFinds(list', id);
    UpdateShows(list, u, id);
    if Lookup(list, id).Some? {
      var x := Lookup(list, id).value;
      if u.Created? {
        SortMembers(list + [u.message]);
        LookupIs(list', id, x, number);
      } else {
        var i :| 0 <= i < |list| && list[i] == x;
        assert list'[i] == Change(x, u);
        LookupIs(list', id, Change(x, u), number);
      }
    } else if u.Created? && u.message.id == id {
      SortMembers(list + [u.message]);
      LookupIs(list', id, u.message, number);
    }
  }

  lemma LifeGrows(item: Option<Message>, updates: seq<Update>, u: Update)
    ensures Life(item, updates + [u]) == Live(Life(item, updates), u)
  {
    assert (updates + [u])[..|updates|] == updates;
  }

  /** What the list shows of a message depends on the updates about that message alone. */
  lemma {:induction false} ListShowsLives(list: seq<Message>, updates: seq<Update>, id: MessageId, number: Numbering)
    requires Numbered(number) && ListOk(list, number) && AllFollow(updates, number)
    ensures Lookup(ApplyAll(list, updates), id) == Life(Lookup(list, id), About(updates, id))
  {
    if updates != [] {
      var n := |updates| - 1;
      var before, u := updates[..n], updates[n];
      ListShowsLives(list, before, id, number);
      UpdatesKeepOk(list, before, number);
      LookupAfter(ApplyAll(list, before), u, id, number);
      LifeGrows(Lookup(list, id), About(before, id), u);
      hide Life, Lookup, Live;
      assert About(updates, id) == About(before, id) + if SubjectOf(u) == id then [u] else [];
      assert About(before, id) + [] == About(before, id);
    }
  }

  lemma SameLookups(a: seq<Message>, b: seq<Message>, number: Numbering)
    requires Numbered(number) && ListOk(a, number) && ListOk(b, number)
    requires forall id :: Lookup(a, id) == Lookup(b, id)
    ensures a == b
  {
    forall id
      ensures id in IdSet(a) <==> id in IdSet(b)
    {
      LookupFinds(a, id);
      LookupFinds(b, id);
    }
    assert IdSet(a) == IdSet(b);
    IdsDetermineList(a, b, number);
    assert |a| == |IdsOf(a)| == |IdsOf(b)| == |b|;
    forall i | 0 <= i < |a|
      ensures a[i] == b[i]
    {
      assert IdsOf(a)[i] == a[i].id && IdsOf(b)[i] == b[i].id;
      LookupIs(a, a[i].id, a[i], number);
      LookupIs(b, b[i].id, b[i], number);
    }
  }

  /** Every message fares the same under both histories. */
  ghost predicate SameLives(list: seq<Message>, a: seq<Update>, b: seq<Update>) {
    forall id :: Life(Lookup(list, id), About(a, id)) == Life(Lookup(list, id), About(b, id))
  }

  /** Two clients show the same list, whole messages included, exactly if for every message
      the updates about it that each of them saw make the same of it. */
  lemma ContentConverges(list: seq<Message>, a: seq<Update>, b: seq<Update>, number: Numbering)
    requires Numbered(number) && ListOk(list, number) && AllFollow(a, number) && AllFollow(b, number)
    ensures ApplyAll(list, a) == ApplyAll(list, b) <==> SameLives(list, a, b)
  {
    hide Life, About, Lookup, ApplyAll, ListOk, AllFollow;
    UpdatesKeepOk(list, a, number);
    UpdatesKeepOk(list, b, number);
    forall id
      ensures Lookup(ApplyAll(list, a), id) == Life(Lookup(list, id), About(a, id))
      ensures Lookup(ApplyAll(list, b), id) == Life(Lookup(list, id), About(b, id))
    {
      ListShowsLives(list, a, id, number);
      ListShowsLives(list, b, id, number);
    }
    if ApplyAll(list, a) == ApplyAll(list, b) {
      forall id
        ensures Life(Lookup(list, id), About(a, id)) == Life(Lookup(list, id), About(b, id))
      {
        assert Lookup(ApplyAll(list, a), id) == Lookup(ApplyAll(list, b), id);
      }
    }
    if SameLives(list, a, b) {
      SameLookups(ApplyAll(list, a), ApplyAll(list, b), number);
    }
  }

  /** In particular if the updates about each message came in the same order, however they
      were mixed with those about others. */
  lemma SameOrderSameContent(list: seq<Message>, a: seq<Update>, b: seq<Update>, number: Numbering)
    requires Numbered(number) && ListOk(list, number) && AllFollow(a, number) && AllFollow(b, number)
    requires forall id :: About(a, id) == About(b, id)
    ensures ApplyAll(list, a) == ApplyAll(list, b)
  {
    hide Life, About, Lookup, ApplyAll, ListOk, AllFollow;
    ContentConverges(list, a, b, number);
  }

  // ------------------------------------------------------------- what is deleted

  lemma SortMembers(list: seq<Message>)
    ensures forall x :: x in Sort(list) <==> x in list
  {
    SortSorts(list);
    forall x
      ensures x in Sort(list) <==> x in list
    {
      assert x in list <==> x in multiset(list);
      assert x in Sort(list) <==> x in multiset(Sort(list));
    }
  }

  predicate ShownDeleted(list: seq<Message>, id: MessageId) {
    exists x :: x in list && x.id == id && x.isDeleted
  }

  lemma Members(list: seq<Message>, id: MessageId)
    ensures Contains(list, id) <==> exists x :: x in list && x.id == id
  {
  }

  /** The update makes a list show the message as deleted, if it did not already. */
  predicate Deletes(list: seq<Message>, u: Update, id: MessageId) {
    match u
    case Created(m) => m.id == id && m.isDeleted && !Contains(list, id)
    case Edited(_, _, _) => false
    case Deleted(d, _) => d == id && Contains(list, id)
    case EditAnswered(m) => m.id == id && m.isDeleted && Contains(list, id)
    case DeleteAnswered(d) => d == id && Contains(list, id)
  }

  /** The answer to an edit brings the message back as it was edited. */
  predicate Restores(u: Update, id: MessageId) {
    u.EditAnswered? && u.message.id == id && !u.message.isDeleted
  }

  lemma UpdateShows(list: seq<Message>, u: Update, id: MessageId)
    ensures ShownDeleted(Apply(list, u), id) <==> Deletes(list, u, id) || (ShownDeleted(list, id) && !Restores(u, id))
    ensures Contains(Apply(list, u), id) <==> Contains(list, id) || (u.Created? && u.message.id == id)
  {
    var list' := Apply(list, u);
    Members(list, id);
    Members(list', id);
    if u.Created? {
      SortMembers(list + [u.message]);
    } else {
      forall x | x in list && x.id == id
        ensures Change(x, u) in list' && Change(x, u).id == id
      {
        var i :| 0 <= i < |list| && list[i] == x;
        assert list'[i] == Change(x, u);
      }
      forall x | x in list' && x.id == id
        ensures exists y :: y in list && y.id == id && x == Change(y, u)
      {
        var i :| 0 <= i < |list'| && list'[i] == x;
        assert x == Change(list[i], u);
      }
    }
  }

  /** The i-th update deletes the message, and none after it brings it back. */
  predicate DeletedFrom(list: seq<Message>, updates: seq<Update>, i: nat, id: MessageId)
    requires i < |updates|
  {
    && Deletes(ApplyAll(list, updates[..i]), updates[i], id)
    && forall j :: i < j < |updates| ==> !Restores(updates[j], id)
  }

  /** Over every history, a message shows as deleted exactly if some update deleted it, or
      it was deleted from the start, and no answered edit has brought it back since. */
  lemma {:induction false} DeletedExactly(list: seq<Message>, updates: seq<Update>, id: MessageId)
    ensures ShownDeleted(ApplyAll(list, updates), id) <==>
      || (ShownDeleted(list, id) && forall j :: 0 <= j < |updates| ==> !Restores(updates[j], id))
      || (exists i :: 0 <= i < |updates| && DeletedFrom(list, updates, i, id))
  {
    if updates != [] {
      var n := |updates| - 1;
      var before, u := updates[..n], updates[n];
      DeletedExactly(list, before, id);
      UpdateShows(ApplyAll(list, before), u, id);
      assert forall i :: 0 <= i < n ==> before[i] == updates[i] && before[..i] == updates[..i];
      if Deletes(ApplyAll(list, before), u, id) {
        assert DeletedFrom(list, updates, n, id);
      }
      if !Restores(u, id) {
        assert forall i :: 0 <= i < n && DeletedFrom(list, before, i, id) ==> DeletedFrom(list, updates, i, id);
      }
      assert forall i :: 0 <= i < n && DeletedFrom(list, updates, i, id) ==> DeletedFrom(list, before, i, id) && !Restores(u, id);
    }
  }

  lemma {:induction false} ContainsAfter(list: seq<Message>, updates: seq<Update>, id: MessageId)
    ensures Contains(ApplyAll(list, updates), id) <==> Contains(list, id) || id in CreatedIds(updates)
  {
    if updates != [] {
      var n := |updates| - 1;
      ContainsAfter(list, updates[..n], id);
      UpdateShows(ApplyAll(list, updates[..n]), updates[n], id);
      OneMoreCreated(updates[..n], updates[n]);
      assert updates == updates[..n] + [updates[n]];
    }
  }

  predicate IsDelete(u: Update, id: MessageId) {
    (u.Deleted? || u.DeleteAnswered?) && u.id == id
  }

  /** Where no edit is answered and nothing is created as deleted, a delete takes effect
      exactly if its message was in the list to begin with or was created before it. */
  lemma DeleteNeedsItsMessage(list: seq<Message>, updates: seq<Update>, id: MessageId)
    requires !ShownDeleted(list, id)
    requires forall u :: u in updates ==> !u.EditAnswered? && !(u.Created? && u.message.id == id && u.message.isDeleted)
    ensures ShownDeleted(ApplyAll(list, updates), id) <==>
      exists i :: 0 <= i < |updates| && IsDelete(updates[i], id) && (Contains(list, id) || id in CreatedIds(updates[..i]))
  {
    DeletedExactly(list, updates, id);
    forall i | 0 <= i < |updates|
      ensures DeletedFrom(list, updates, i, id)
         <==> IsDelete(updates[i], id) && (Contains(list, id) || id in CreatedIds(updates[..i]))
    {
      ContainsAfter(list, updates[..i], id);
      assert updates[i] in updates;
    }
  }

  /** So a delete that arrives before the message it is about is lost, while the other order
      shows the message as deleted: the lists agree on ids but not on content. */
  lemma EarlyDeleteIsLost(m: Message, list: seq<Message>)
    requires !Contains(list, m.id) && !m.isDeleted
    ensures m in ApplyAll(list, [Deleted(m.id, None), Created(m)])
    ensures m !in ApplyAll(list, [Created(m), Deleted(m.id, None)])
    ensures !ShownDeleted(ApplyAll(list, [Deleted(m.id, None), Created(m)]), m.id)
    ensures ShownDeleted(ApplyAll(list, [Created(m), Deleted(m.id, None)]), m.id)
  {
    var d, c := Deleted(m.id, None), Created(m);
    var early, late := [d, c], [c, d];
    assert early[..0] == [] && early[..1] == [d] && late[..1] == [c] && [c][..0] == [] && [d][..0] == [];
    Members(list, m.id);
    DeleteNeedsItsMessage(list, early, m.id);
    DeleteNeedsItsMessage(list, late, m.id);
    assert early[0] == d && early[1] == c;
    assert CreatedIds(late[..1]) == {m.id} by { assert late[..1][0] == c; }
    assert IsDelete(late[1], m.id);
    SortMembers(list + [m]);
    assert ApplyAll(list, [d]) == Apply(ApplyAll(list, []), d) == list;
    assert ApplyAll(list, early) == Sort(list + [m]);
    var shown := ApplyAll(list, late);
    assert shown == Apply(ApplyAll(list, [c]), d);
    forall i | 0 <= i < |shown|
      ensures shown[i] != m
    {
    }
  }

  /** Once a message shows as deleted, only the answer to an edit brings it back. */
  lemma DeletedStaysDeleted(list: seq<Message>, updates: seq<Update>, id: MessageId)
    requires ShownDeleted(list, id)
    requires forall i :: 0 <= i < |updates| ==> !Restores(updates[i], id)
    ensures ShownDeleted(ApplyAll(list, updates), id)
  {
    DeletedExactly(list, updates, id);
  }
}
