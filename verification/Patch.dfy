// The task row, the PATCH body and the closure that applies one to the other
// (internal/modules/task/model.go, dto.go, and the mutate closure of service.go).

module Patch {
  import opened Prelude

  // Instants are opaque to the program: it only copies them.
  type Time = int

  datatype Task = Task(
    id: nat, title: string, done: bool, due: Option<Time>,
    createdAt: Time, updatedAt: Time, deletedAt: Option<Time>)

  // ----- due_date: three states in one struct -----

  datatype NullableTime = NullableTime(isSet: bool, isNull: bool, value: Time)

  const ZERO := NullableTime(false, false, 0)

  // One occurrence of the due_date key, as the JSON library hands it over.
  datatype Token = JsonNull | JsonTime(t: Time) | JsonInvalid

  // What a due_date is documented to mean for the row.
  datatype DueChange = Keep | Clear | Move(t: Time)

  function Meaning(n: NullableTime): DueChange {
    if !n.isSet then Keep else if n.isNull then Clear else Move(n.value)
  }

  function TokenMeaning(k: Token): DueChange
    requires !k.JsonInvalid?
  {
    if k.JsonNull? then Clear else Move(k.t)
  }

  function Unmarshal(n: NullableTime, k: Token): NullableTime {
    match k
    case JsonNull => n.(isSet := true, isNull := true)
    case JsonTime(t) => n.(isSet := true, value := t)
    case JsonInvalid => n.(isSet := true)
  }

  class NullableTimeField {
    var isSet: bool
    var isNull: bool
    var value: Time

    function View(): NullableTime
      reads this
    {
      NullableTime(isSet, isNull, value)
    }

    constructor ()
      ensures View() == ZERO
    {
      isSet, isNull, value := false, false, 0;
    }

    // isNull is set on a null and never reset.
    method UnmarshalJSON(data: Token) returns (ok: bool)
      modifies this
      ensures View() == Unmarshal(old(View()), data)
      ensures ok == !data.JsonInvalid?
    {
      isSet := true;
      if data == JsonNull {
        isNull := true;
        return true;
      }
      if data.JsonTime? {
        value := data.t;
      }
      ok := data.JsonTime?;
    }
  }

  // The field after decoding a body in which the key occurs once per token.
  function Decoded(ks: seq<Token>): NullableTime {
    if ks == [] then ZERO else Unmarshal(Decoded(ks[..|ks| - 1]), ks[|ks| - 1])
  }

  // The JSON decoder calls UnmarshalJSON once per occurrence and gives up at the first error.
  method DecodeDueDate(ks: seq<Token>) returns (r: Option<NullableTime>)
    ensures r.None? <==> JsonInvalid in ks
    ensures r.Some? ==> r.value == Decoded(ks)
  {
    var field := new NullableTimeField();
    for i := 0 to |ks|
      invariant JsonInvalid !in ks[..i]
      invariant field.View() == Decoded(ks[..i])
    {
      assert ks[..i + 1][..i] == ks[..i];
      assert ks[..i + 1] == ks[..i] + [ks[i]];
      var ok := field.UnmarshalJSON(ks[i]);
      if !ok {
        return None;
      }
    }
    assert ks[..|ks|] == ks;
    r := Some(field.View());
  }

  lemma {:induction false} DecodedFlags(ks: seq<Token>)
    requires JsonInvalid !in ks
    ensures Decoded(ks).isSet == (ks != [])
    ensures Decoded(ks).isNull == (JsonNull in ks)
    ensures ks != [] && ks[|ks| - 1].JsonTime? ==> Decoded(ks).value == ks[|ks| - 1].t
  {
    if ks != [] {
      var front := ks[..|ks| - 1];
      assert ks == front + [ks[|ks| - 1]];
      DecodedFlags(front);
    }
  }

  // The last occurrence decides what the field means, except exactly when it is a time and an
  // earlier occurrence was null: then the null wins. With at most one occurrence the three
  // documented states are told apart.
  lemma DueDateMeansLastOccurrence(ks: seq<Token>)
    requires JsonInvalid !in ks
    ensures ks == [] ==> Meaning(Decoded(ks)) == Keep
    ensures ks != [] ==>
      var last := ks[|ks| - 1];
      (Meaning(Decoded(ks)) == TokenMeaning(last) <==> !(last.JsonTime? && JsonNull in ks[..|ks| - 1]))
    ensures |ks| == 1 ==> Meaning(Decoded(ks)) == TokenMeaning(ks[0])
  {
    DecodedFlags(ks);
    if ks != [] {
      assert ks == ks[..|ks| - 1] + [ks[|ks| - 1]];
    }
  }

  // A key that occurs once, or not at all.
  lemma OneOccurrence(t: Time)
    ensures Meaning(Decoded([])) == Keep
    ensures Meaning(Decoded([JsonNull])) == Clear
    ensures Meaning(Decoded([JsonTime(t)])) == Move(t)
  {
    DueDateMeansLastOccurrence([]);
    DueDateMeansLastOccurrence([JsonNull]);
    DueDateMeansLastOccurrence([JsonTime(t)]);
  }

  lemma NullThenTimeClears()
    ensures Meaning(Decoded([JsonNull, JsonTime(7)])) == Clear
  {
    DecodedFlags([JsonNull, JsonTime(7)]);
    assert [JsonNull, JsonTime(7)][0] == JsonNull;
  }

  // ----- the patch -----

  // An absent key and a JSON null both leave title and done as None.
  datatype UpdateRequest = UpdateRequest(title: Option<string>, done: Option<bool>, due: NullableTime)

  const EMPTY := UpdateRequest(None, None, ZERO)

  function DueAfter(old_: Option<Time>, c: DueChange): Option<Time> {
    match c
    case Keep => old_
    case Clear => None
    case Move(t) => Some(t)
  }

  function ApplyPatch(p: UpdateRequest, t: Task): Task {
    t.(title := if p.title.Some? then p.title.value else t.title,
       done := if p.done.Some? then p.done.value else t.done,
       due := DueAfter(t.due, Meaning(p.due)))
  }

  // The local *Task of the update transaction.
  class TaskRecord {
    var title: string
    var done: bool
    var due: Option<Time>
    const id: nat
    const createdAt: Time
    var updatedAt: Time
    const deletedAt: Option<Time>

    function View(): Task
      reads this
    {
      Task(id, title, done, due, createdAt, updatedAt, deletedAt)
    }

    constructor (t: Task)
      ensures View() == t
    {
      id, title, done, due := t.id, t.title, t.done, t.due;
      createdAt, updatedAt, deletedAt := t.createdAt, t.updatedAt, t.deletedAt;
    }

    // The mutate closure.
    method Mutate(req: UpdateRequest)
      modifies this
      ensures View() == ApplyPatch(req, old(View()))
      ensures title == (if req.title.Some? then req.title.value else old(title))
      ensures done == (if req.done.Some? then req.done.value else old(done))
      ensures !req.due.isSet ==> due == old(due)
      ensures req.due.isSet ==> due == if req.due.isNull then None else Some(req.due.value)
      ensures updatedAt == old(updatedAt)
    {
      if req.title.Some? {
        title := req.title.value;
      }
      if req.done.Some? {
        done := req.done.value;
      }
      if req.due.isSet {
        if req.due.isNull {
          due := None;
        } else {
          var v := req.due.value;
          due := Some(v);
        }
      }
    }
  }

  // One patch with the effect of p followed by q: q's mentioned fields win.
  function Merge(p: UpdateRequest, q: UpdateRequest): UpdateRequest {
    UpdateRequest(
      if q.title.Some? then q.title else p.title,
      if q.done.Some? then q.done else p.done,
      if q.due.isSet then q.due else p.due)
  }

  // Patches form a monoid acting on rows, and each is idempotent.
  lemma MergeIsSequencing(p: UpdateRequest, q: UpdateRequest, r: UpdateRequest, t: Task)
    ensures ApplyPatch(Merge(p, q), t) == ApplyPatch(q, ApplyPatch(p, t))
    ensures Merge(Merge(p, q), r) == Merge(p, Merge(q, r))
    ensures Merge(p, EMPTY) == p && ApplyPatch(Merge(EMPTY, p), t) == ApplyPatch(p, t) && ApplyPatch(EMPTY, t) == t
    ensures ApplyPatch(p, ApplyPatch(p, t)) == ApplyPatch(p, t)
  {
  }

  // Two patches agree on every field that both mention.
  predicate Compatible(p: UpdateRequest, q: UpdateRequest) {
    && (p.title.Some? && q.title.Some? ==> p.title == q.title)
    && (p.done.Some? && q.done.Some? ==> p.done == q.done)
    && (p.due.isSet && q.due.isSet ==> Meaning(p.due) == Meaning(q.due))
  }

  ghost predicate Commute(p: UpdateRequest, q: UpdateRequest) {
    forall t :: ApplyPatch(p, ApplyPatch(q, t)) == ApplyPatch(q, ApplyPatch(p, t))
  }

  // The order of two patches is immaterial exactly when they are compatible; in particular when
  // they mention disjoint fields.
  lemma CommuteExactly(p: UpdateRequest, q: UpdateRequest)
    ensures Commute(p, q) <==> Compatible(p, q)
  {
    if Commute(p, q) {
      var t := Task(1, "", false, None, 0, 0, None);
      assert ApplyPatch(p, ApplyPatch(q, t)) == ApplyPatch(q, ApplyPatch(p, t));
    }
  }

  // The fields a patch leaves alone, and the columns no patch can reach.
  predicate AgreeOutside(p: UpdateRequest, a: Task, b: Task) {
    && (p.title.None? ==> a.title == b.title)
    && (p.done.None? ==> a.done == b.done)
    && (!p.due.isSet ==> a.due == b.due)
  }

  lemma PatchDeterminedOutside(p: UpdateRequest, a: Task, b: Task)
    requires a.id == b.id && a.createdAt == b.createdAt && a.deletedAt == b.deletedAt
    ensures ApplyPatch(p, a).(updatedAt := 0) == ApplyPatch(p, b).(updatedAt := 0) <==> AgreeOutside(p, a, b)
  {
  }
}
