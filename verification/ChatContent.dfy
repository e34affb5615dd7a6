/** What a chat message looks like after updates, field by field. */
module ChatContent {
  import opened Prelude
  import opened ChatThread

  // ------------------------------------------------------------------ one update

  /** Everything about the message but the fields that an edit or a delete is about. */
  predicate SameRest(x: Message, y: Message) {
    x.id == y.id && x.sequence == y.sequence
  }

  /** An edit event changes the body if it carries one, the time if it carries one, and sets
      the edited mark; of that message alone. */
  lemma EditedDoes(list: seq<Message>, id: MessageId, body: Option<string>, updatedAt: Option<string>, i: nat)
    requires i < |list|
    ensures var list', m := Apply(list, Edited(id, body, updatedAt)), list[i];
      && |list'| == |list| && SameRest(list'[i], m)
      && (m.id != id ==> list'[i] == m)
      && (m.id == id ==>
            && list'[i].body == (match body case Some(b) => Some(b) case None => m.body)
            && list'[i].updatedAt == (match updatedAt case Some(t) => t case None => m.updatedAt)
            && list'[i].isEdited && list'[i].isDeleted == m.isDeleted && list'[i].attachments == m.attachments)
  {
  }

  /** A delete event takes body and attachments away and marks the message as deleted; the
      answer to a delete does the same and leaves the time. */
  lemma DeletedDoes(list: seq<Message>, id: MessageId, updatedAt: Option<string>, i: nat)
    requires i < |list|
    ensures var list', m := Apply(list, Deleted(id, updatedAt)), list[i];
      && |list'| == |list| && SameRest(list'[i], m)
      && (m.id != id ==> list'[i] == m)
      && (m.id == id ==>
            && list'[i].body == None && list'[i].attachments == [] && list'[i].isDeleted && list'[i].isEdited == m.isEdited
            && list'[i].updatedAt == (match updatedAt case Some(t) => t case None => m.updatedAt))
    ensures Apply(list, DeleteAnswered(id)) == Apply(list, Deleted(id, None))
  {
    var a, b := Apply(list, DeleteAnswered(id)), Apply(list, Deleted(id, None));
    assert forall k :: 0 <= k < |list| ==> a[k] == b[k];
  }

  /** The answer to an edit replaces the message as a whole. */
  lemma EditAnsweredDoes(list: seq<Message>, answer: Message, i: nat)
    requires i < |list|
    ensures var list' := Apply(list, EditAnswered(answer));
      |list'| == |list| && list'[i] == if list[i].id == answer.id then answer else list[i]
  {
  }

  /** A creation adds the message if no message with its id is listed, and nothing else. */
  lemma CreatedDoes(list: seq<Message>, m: Message)
    ensures (exists i :: 0 <= i < |list| && list[i].id == m.id) ==> Apply(list, Created(m)) == list
    ensures (forall i :: 0 <= i < |list| ==> list[i].id != m.id) ==>
      multiset(Apply(list, Created(m))) == multiset(list) + multiset{m} && Ascending(Apply(list, Created(m)))
  {
    SortSorts(list + [m]);
    assert multiset(list + [m]) == multiset(list) + multiset{m};
  }

  // ------------------------------------------------------------------- last words

  /** What an update says about the fields of a message that is listed. */
  datatype Said = Said(
    body: Option<Option<string>>,
    attachments: Option<seq<string>>,
    isEdited: Option<bool>,
    isDeleted: Option<bool>,
    updatedAt: Option<string>)

  function Says(u: Update): Said {
    match u
    case Created(_) => Said(None, None, None, None, None)
    case Edited(_, body, updatedAt) => Said(if body.Some? then Some(body) else None, None, Some(true), None, updatedAt)
    case Deleted(_, updatedAt) => Said(Some(None), Some([]), None, Some(true), updatedAt)
    case DeleteAnswered(_) => Said(Some(None), Some([]), None, Some(true), None)
    case EditAnswered(m) => Said(Some(m.body), Some(m.attachments), Some(m.isEdited), Some(m.isDeleted), Some(m.updatedAt))
  }

  /** `v` is the last thing that was said, or `start` if nothing was. */
  ghost predicate LastWord<T(!new)>(start: T, said: seq<Option<T>>, v: T) {
    || (exists i :: 0 <= i < |said| && said[i] == Some(v) && forall j :: i < j < |said| ==> said[j] == None)
    || (v == start && forall j :: 0 <= j < |said| ==> said[j] == None)
  }

  lemma OneMoreWord<T(!new)>(start: T, said: seq<Option<T>>, v: T, more: Option<T>)
    requires LastWord(start, said, v)
    ensures LastWord(start, said + [more], match more case Some(w) => w case None => v)
  {
    var all := said + [more];
    if more.Some? {
      assert all[|said|] == more;
    } else if i :| 0 <= i < |said| && said[i] == Some(v) && forall j :: i < j < |said| ==> said[j] == None {
      assert all[i] == Some(v);
    }
  }

  function Bodies(updates: seq<Update>): seq<Option<Option<string>>> {
    seq(|updates|, i requires 0 <= i < |updates| => Says(updates[i]).body)
  }

  function Attachments(updates: seq<Update>): seq<Option<seq<string>>> {
    seq(|updates|, i requires 0 <= i < |updates| => Says(updates[i]).attachments)
  }

  function EditMarks(updates: seq<Update>): seq<Option<bool>> {
    seq(|updates|, i requires 0 <= i < |updates| => Says(updates[i]).isEdited)
  }

  function DeleteMarks(updates: seq<Update>): seq<Option<bool>> {
    seq(|updates|, i requires 0 <= i < |updates| => Says(updates[i]).isDeleted)
  }

  function Times(updates: seq<Update>): seq<Option<string>> {
    seq(|updates|, i requires 0 <= i < |updates| => Says(updates[i]).updatedAt)
  }

  /** Every field of `x` is the last word about it, starting from `m`. */
  ghost predicate LastWords(m: Message, updates: seq<Update>, x: Message) {
    && x.id == m.id
    && LastWord(m.body, Bodies(updates), x.body)
    && LastWord(m.attachments, Attachments(updates), x.attachments)
    && LastWord(m.isEdited, EditMarks(updates), x.isEdited)
    && LastWord(m.isDeleted, DeleteMarks(updates), x.isDeleted)
    && LastWord(m.updatedAt, Times(updates), x.updatedAt)
  }

  lemma OneMoreSaid(updates: seq<Update>, u: Update)
    ensures Bodies(updates + [u]) == Bodies(updates) + [Says(u).body]
    ensures Attachments(updates + [u]) == Attachments(updates) + [Says(u).attachments]
    ensures EditMarks(updates + [u]) == EditMarks(updates) + [Says(u).isEdited]
    ensures DeleteMarks(updates + [u]) == DeleteMarks(updates) + [Says(u).isDeleted]
    ensures Times(updates + [u]) == Times(updates) + [Says(u).updatedAt]
  {
  }

  lemma ChangeSays(m: Message, u: Update)
    requires SubjectOf(u) == m.id
    ensures var x, said := Change(m, u), Says(u);
      && x.id == m.id
      && x.body == (match said.body case Some(b) => b case None => m.body)
      && x.attachments == (match said.attachments case Some(a) => a case None => m.attachments)
      && x.isEdited == (match said.isEdited case Some(b) => b case None => m.isEdited)
      && x.isDeleted == (match said.isDeleted case Some(b) => b case None => m.isDeleted)
      && x.updatedAt == (match said.updatedAt case Some(t) => t case None => m.updatedAt)
  {
  }

  /** A listed message stays listed, and each of its fields is the last word about it. */
  lemma {:induction false} LifeIsLastWords(m: Message, updates: seq<Update>)
    requires forall i :: 0 <= i < |updates| ==> SubjectOf(updates[i]) == m.id
    ensures Life(Some(m), updates).Some? && LastWords(m, updates, Life(Some(m), updates).value)
  {
    if updates != [] {
      hide LastWord, Says, Change;
      var before, u := updates[..|updates| - 1], updates[|updates| - 1];
      LifeIsLastWords(m, before);
      assert updates == before + [u];
      OneMoreSaid(before, u);
      var x := Life(Some(m), before).value;
      ChangeSays(x, u);
      OneMoreWord(m.body, Bodies(before), x.body, Says(u).body);
      OneMoreWord(m.attachments, Attachments(before), x.attachments, Says(u).attachments);
      OneMoreWord(m.isEdited, EditMarks(before), x.isEdited, Says(u).isEdited);
      OneMoreWord(m.isDeleted, DeleteMarks(before), x.isDeleted, Says(u).isDeleted);
      OneMoreWord(m.updatedAt, Times(before), x.updatedAt, Says(u).updatedAt);
    }
  }

  lemma {:induction false} AboutIsAbout(updates: seq<Update>, id: MessageId)
    ensures forall i :: 0 <= i < |About(updates, id)| ==> SubjectOf(About(updates, id)[i]) == id
  {
    if updates != [] {
      AboutIsAbout(updates[..|updates| - 1], id);
    }
  }

  /** Over every history, each field of a message that was listed shows the last word that
      any update about that message said on it. */
  lemma ShownFieldsAreLastWords(list: seq<Message>, updates: seq<Update>, id: MessageId, number: Numbering)
    requires Numbered(number) && ListOk(list, number) && AllFollow(updates, number) && Contains(list, id)
    ensures Lookup(list, id).Some? && Lookup(ApplyAll(list, updates), id).Some?
    ensures LastWords(Lookup(list, id).value, About(updates, id), Lookup(ApplyAll(list, updates), id).value)
  {
    hide LastWords, Numbered, ListOk, AllFollow;
    LookupFinds(list, id);
    AboutIsAbout(updates, id);
    ListShowsLives(list, updates, id, number);
    LifeIsLastWords(Lookup(list, id).value, About(updates, id));
  }

  /** A message that is not listed begins with its creation: what was said of it before is
      lost, and further creations of it change nothing. */
  lemma {:induction false} LifeBegins(before: seq<Update>, m: Message, after: seq<Update>)
    requires forall u :: u in before ==> !u.Created?
    ensures Life(None, before) == None
    ensures Life(None, before + [Created(m)] + after) == Life(Some(m), after)
  {
    NothingBefore(before);
    var all := before + [Created(m)] + after;
    if after == [] {
      assert all == before + [Created(m)];
      LifeGrows(None, before, Created(m));
    } else {
      var n := |after| - 1;
      LifeBegins(before, m, after[..n]);
      assert all == before + [Created(m)] + after[..n] + [after[n]];
      LifeGrows(None, before + [Created(m)] + after[..n], after[n]);
    }
  }

  lemma {:induction false} NothingBefore(before: seq<Update>)
    requires forall u :: u in before ==> !u.Created?
    ensures Life(None, before) == None
  {
    if before != [] {
      NothingBefore(before[..|before| - 1]);
      assert before[|before| - 1] in before;
    }
  }
}
