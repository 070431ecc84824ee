/**
 * Conversation turns and the hosted backend's message mapping.
 *
 * The caller's history arrives as raw decoded JSON: the handlers never
 * validate it, they only copy it, append `{role, content}` dicts to the copy
 * and, on the hosted path, read the `role` and `content` keys of each entry.
 */
module Conversation {
  import opened Wrappers
  import opened JsonValues
  import opened Errors

  /** The two roles a handler writes and the hosted backend accepts. */
  datatype Role = User | Assistant

  /** A turn the handler writes itself: `{"role": ..., "content": ...}`. */
  datatype Turn = Turn(role: Role, content: Json)

  function RoleName(role: Role): string {
    match role
    case User => "user"
    case Assistant => "assistant"
  }

  /** The dict a turn becomes inside a conversation history. */
  function ToJson(t: Turn): Json {
    JObj(map["role" := JStr(RoleName(t.role)), "content" := t.content])
  }

  /**
   * The hosted backend's wire shape of a turn:
   * `{"role": ..., "content": [{"text": ...}]}`.
   */
  function WireMessage(t: Turn): Json {
    JObj(map["role" := JStr(RoleName(t.role)), "content" := JArr([JObj(map["text" := t.content])])])
  }

  /**
   * Copy-then-append: the caller's history followed by one new turn. Values
   * are immutable, so the caller's sequence is left as it was.
   */
  function AppendTurn(history: seq<Json>, t: Turn): (r: seq<Json>)
    ensures |r| == |history| + 1
    ensures r[..|history|] == history
    ensures r[|history|] == ToJson(t)
  {
    history + [ToJson(t)]
  }

  /** A history entry whose role is `user` or `assistant`: the mapping forwards it. */
  predicate Kept(j: Json) {
    && j.JObj?
    && "role" in j.fields
    && (j.fields["role"] == JStr("user") || j.fields["role"] == JStr("assistant"))
  }

  /**
   * A history entry the mapping reads without raising: a dict with a `role`
   * key, and a `content` key too when it is forwarded.
   */
  predicate Mappable(j: Json) {
    && j.JObj?
    && "role" in j.fields
    && (Kept(j) ==> "content" in j.fields)
  }

  /** Every entry of the history can be read by the mapping loop. */
  predicate AllMappable(turns: seq<Json>) {
    forall i :: 0 <= i < |turns| ==> Mappable(turns[i])
  }

  /** `t` carries exactly the role and content of the history entry `j`. */
  predicate Describes(t: Turn, j: Json) {
    && j.JObj?
    && "role" in j.fields
    && "content" in j.fields
    && j.fields["role"] == JStr(RoleName(t.role))
    && j.fields["content"] == t.content
  }

  /**
   * One step of the mapping loop: `msg["role"]` must exist, a user or
   * assistant turn must also have `msg["content"]`, any other role is
   * dropped without error (None).
   */
  function Classify(j: Json): (r: Result<Option<Turn>, Error>)
    ensures r.Success? <==> Mappable(j)
    ensures r.Success? ==> (r.value.Some? <==> Kept(j))
    ensures r.Success? && r.value.Some? ==> Describes(r.value.value, j)
  {
    if !j.JObj? then
      Failure(MalformedRequest("conversation turn is not an object"))
    else if "role" !in j.fields then
      Failure(MalformedRequest("conversation turn has no role"))
    else if j.fields["role"] == JStr("user") || j.fields["role"] == JStr("assistant") then
      if "content" !in j.fields then
        Failure(MalformedRequest("conversation turn has no content"))
      else
        var role := if j.fields["role"] == JStr("user") then User else Assistant;
        Success(Some(Turn(role, j.fields["content"])))
    else
      Success(None)
  }

  /** Reference filter: the entries with role `user` or `assistant`, in order. */
  function KeptTurns(turns: seq<Json>): (kept: seq<Json>)
    ensures |kept| <= |turns|
    ensures forall k :: 0 <= k < |kept| ==> Kept(kept[k])
  {
    if |turns| == 0 then []
    else (if Kept(turns[0]) then [turns[0]] else []) + KeptTurns(turns[1..])
  }

  /**
   * The hosted backend's message list: every user/assistant entry, in
   * order, as a turn; other roles dropped. Fails on the first entry the
   * loop cannot read.
   */
  function MapMessages(turns: seq<Json>): (r: Result<seq<Turn>, Error>)
    ensures r.Success? <==> AllMappable(turns)
    ensures r.Success? ==> |r.value| == |KeptTurns(turns)| <= |turns|
  {
    if |turns| == 0 then
      Success([])
    else
      var tail := turns[1..];
      assert forall i :: 0 <= i < |tail| ==> tail[i] == turns[i + 1];
      match Classify(turns[0])
      case Failure(e) =>
        assert !Mappable(turns[0]);
        Failure(e)
      case Success(head) =>
        match MapMessages(tail)
        case Failure(e) =>
          var i :| 0 <= i < |tail| && !Mappable(tail[i]);
          assert !Mappable(turns[i + 1]);
          Failure(e)
        case Success(rest) =>
          assert AllMappable(turns) by {
            forall i | 0 <= i < |turns|
              ensures Mappable(turns[i])
            {
              if i > 0 {
                assert Mappable(tail[i - 1]);
              }
            }
          }
          Success(if head.Some? then [head.value] + rest else rest)
  }

  /** The k-th forwarded message carries the role and content of the k-th kept entry. */
  lemma {:induction false} MapMessagesFollowsKeptTurns(turns: seq<Json>)
    requires MapMessages(turns).Success?
    ensures forall k :: 0 <= k < |MapMessages(turns).value| ==>
              Describes(MapMessages(turns).value[k], KeptTurns(turns)[k])
    decreases |turns|
  {
    if |turns| > 0 {
      var tail := turns[1..];
      var head := Classify(turns[0]).value;
      var rest := MapMessages(tail).value;
      MapMessagesFollowsKeptTurns(tail);
      assert MapMessages(turns).value == (if head.Some? then [head.value] + rest else rest);
      assert KeptTurns(turns) == (if head.Some? then [turns[0]] else []) + KeptTurns(tail);
    }
  }

  /** Filtering distributes over concatenation. */
  lemma {:induction false} KeptTurnsAppend(a: seq<Json>, b: seq<Json>)
    ensures KeptTurns(a + b) == KeptTurns(a) + KeptTurns(b)
    decreases |a|
  {
    if |a| == 0 {
      assert a + b == b;
    } else {
      assert (a + b)[1..] == a[1..] + b;
      KeptTurnsAppend(a[1..], b);
    }
  }

  /** The mapping distributes over concatenation, failing exactly when either part fails. */
  lemma {:induction false} MapMessagesAppend(a: seq<Json>, b: seq<Json>)
    ensures MapMessages(a + b).Success? <==> MapMessages(a).Success? && MapMessages(b).Success?
    ensures MapMessages(a + b).Success? ==> MapMessages(a + b).value == MapMessages(a).value + MapMessages(b).value
    decreases |a|
  {
    if |a| == 0 {
      assert a + b == b;
    } else {
      assert (a + b)[1..] == a[1..] + b;
      assert (a + b)[0] == a[0];
      MapMessagesAppend(a[1..], b);
    }
  }

  /** A history of well-formed user/assistant turns is forwarded whole. */
  lemma {:induction false} MapMessagesDropsNothingFromCleanHistory(turns: seq<Json>)
    requires forall i :: 0 <= i < |turns| ==> Kept(turns[i]) && "content" in turns[i].fields
    ensures MapMessages(turns).Success?
    ensures |MapMessages(turns).value| == |turns|
    ensures forall k :: 0 <= k < |turns| ==> Describes(MapMessages(turns).value[k], turns[k])
  {
    KeptTurnsOfKept(turns);
    MapMessagesFollowsKeptTurns(turns);
  }

  /** Filtering a sequence of kept entries changes nothing. */
  lemma {:induction false} KeptTurnsOfKept(turns: seq<Json>)
    requires forall i :: 0 <= i < |turns| ==> Kept(turns[i])
    ensures KeptTurns(turns) == turns
    decreases |turns|
  {
    if |turns| > 0 {
      assert forall i :: 0 <= i < |turns[1..]| ==> turns[1..][i] == turns[i + 1];
      KeptTurnsOfKept(turns[1..]);
      assert turns == [turns[0]] + turns[1..];
    }
  }

  /** Entries with any other role are dropped, whatever else they hold. */
  lemma {:induction false} KeptTurnsOfDropped(turns: seq<Json>)
    requires forall i :: 0 <= i < |turns| ==> !Kept(turns[i])
    ensures KeptTurns(turns) == []
    decreases |turns|
  {
    if |turns| > 0 {
      assert forall i :: 0 <= i < |turns[1..]| ==> turns[1..][i] == turns[i + 1];
      KeptTurnsOfDropped(turns[1..]);
    }
  }

  /** A history made of one turn the handler wrote maps to that turn. */
  lemma MapMessagesOfOwnTurn(t: Turn)
    ensures MapMessages([ToJson(t)]) == Success([t])
  {
    ClassifyReadsBackTurn(t);
    var turns := [ToJson(t)];
    assert turns[0] == ToJson(t);
    assert turns[1..] == [];
    assert MapMessages(turns[1..]) == Success([]);
    assert Classify(turns[0]) == Success(Some(t));
    assert [t] + [] == [t];
  }

  /** A turn the handler writes is read back as itself by the mapping step. */
  lemma ClassifyReadsBackTurn(t: Turn)
    ensures Classify(ToJson(t)) == Success(Some(t))
  {
  }
}
