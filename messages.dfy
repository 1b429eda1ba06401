/**
 * The request schema of the chat endpoint: one `Message` per conversation
 * turn, and `ChatInput`, the list of them, with its two list constraints
 * (at least one item, at least one turn written by the user).
 */
module Messages {
  import opened Wrappers

  /** The three values of the `role` literal type. */
  datatype Role = System | User | Assistant

  /** The wire spelling of a role. */
  function RoleName(r: Role): string {
    match r
    case System => "system"
    case User => "user"
    case Assistant => "assistant"
  }

  /** Validation of the `role` field: only the three literal spellings are accepted. */
  function ParseRole(s: string): (r: Option<Role>)
    ensures r.Some? ==> RoleName(r.value) == s
    ensures r.None? ==> forall x: Role :: RoleName(x) != s
  {
    if s == "system" then Some(System)
    else if s == "user" then Some(User)
    else if s == "assistant" then Some(Assistant)
    else None
  }

  /** A turn before validation: the role is still the string the caller sent; an absent timestamp is `None`. */
  datatype RawMessage = RawMessage(role: string, content: string, timestamp: Option<string>)

  /** A validated turn. `content` is any string, the empty one included. */
  datatype Message = Message(role: Role, content: string, timestamp: Option<string>)

  /** The validated request body; `Valid` is what its two constraints guarantee. */
  datatype ChatInput = ChatInput(messages: seq<Message>) {
    predicate Valid() {
      |messages| >= 1 && exists i :: 0 <= i < |messages| && messages[i].role == User
    }
  }

  /** The validation failures of a chat request body. */
  datatype ValidationError =
    | InvalidRole(positions: seq<nat>)  // the list positions whose role is not one of the literal values
    | TooFewItems                       // the `min_items=1` constraint
    | ValueError(message: string)       // raised by the `messages` validator

  const UserMessageRequired: string := "At least one user message is required"

  /** `any(msg.role == 'user' for msg in v)`, scanning left to right. */
  function AnyUser(v: seq<Message>): bool {
    if |v| == 0 then false else v[0].role == User || AnyUser(v[1..])
  }

  lemma {:induction false} AnyUserIff(v: seq<Message>)
    ensures AnyUser(v) <==> exists i :: 0 <= i < |v| && v[i].role == User
  {
    if |v| > 0 {
      AnyUserIff(v[1..]);
      if v[0].role != User && exists i :: 0 <= i < |v| && v[i].role == User {
        var i :| 0 <= i < |v| && v[i].role == User;
        assert v[1..][i - 1].role == User;
      }
      if AnyUser(v[1..]) {
        var i :| 0 <= i < |v[1..]| && v[1..][i].role == User;
        assert v[i + 1].role == User;
      }
    }
  }

  /** The `messages` validator: it inspects roles only and returns the list unchanged. */
  function ValidateMessages(v: seq<Message>): (r: Result<seq<Message>, ValidationError>)
    ensures r.Ok? <==> exists i :: 0 <= i < |v| && v[i].role == User
    ensures r.Ok? ==> r.value == v
    ensures r.Err? ==> r.error == ValueError(UserMessageRequired)
  {
    AnyUserIff(v);
    if !AnyUser(v) then Err(ValueError(UserMessageRequired)) else Ok(v)
  }

  /** The positions at or after `from` whose role is rejected, in increasing order. */
  function InvalidPositions(raws: seq<RawMessage>, from: nat): (ps: seq<nat>)
    requires from <= |raws|
    ensures forall k :: k in ps <==> from <= k < |raws| && ParseRole(raws[k].role).None?
    ensures forall i, j :: 0 <= i < j < |ps| ==> ps[i] < ps[j]
    ensures forall i :: 0 <= i < |ps| ==> from <= ps[i]
    decreases |raws| - from
  {
    if from == |raws| then []
    else if ParseRole(raws[from].role).None? then [from] + InvalidPositions(raws, from + 1)
    else InvalidPositions(raws, from + 1)
  }

  /** One turn whose role is known to be valid, with its content and timestamp kept as sent. */
  function ToMessage(raw: RawMessage): (m: Message)
    requires ParseRole(raw.role).Some?
    ensures RoleName(m.role) == raw.role && m.content == raw.content && m.timestamp == raw.timestamp
  {
    Message(ParseRole(raw.role).value, raw.content, raw.timestamp)
  }

  /**
   * Validation of a `ChatInput` body: the item roles and the length
   * constraint, then the `messages` validator, which runs only on a list
   * that passed both. The first two can never fail together (an empty list
   * has no role to reject), so the order in which they are checked does
   * not change any result.
   */
  function ParseChatInput(raws: seq<RawMessage>): (r: Result<ChatInput, ValidationError>)
    ensures r.Ok? <==>
              && (forall k :: 0 <= k < |raws| ==> ParseRole(raws[k].role).Some?)
              && |raws| >= 1
              && (exists k :: 0 <= k < |raws| && raws[k].role == "user")
    ensures r.Ok? ==> r.value.Valid() && |r.value.messages| == |raws|
    ensures r.Ok? ==> forall k :: 0 <= k < |raws| ==> r.value.messages[k] == ToMessage(raws[k])
    ensures r.Err? && r.error.InvalidRole? ==>
              |r.error.positions| > 0 &&
              forall k :: k in r.error.positions <==> 0 <= k < |raws| && ParseRole(raws[k].role).None?
    ensures |raws| == 0 ==> r == Err(TooFewItems)
    ensures r.Err? && r.error.ValueError? ==> r.error.message == UserMessageRequired
    ensures (exists k :: 0 <= k < |raws| && ParseRole(raws[k].role).None?) ==> r.Err? && r.error.InvalidRole?
    ensures && (forall k :: 0 <= k < |raws| ==> ParseRole(raws[k].role).Some?)
            && |raws| >= 1
            && (forall k :: 0 <= k < |raws| ==> raws[k].role != "user")
            ==> r == Err(ValueError(UserMessageRequired))
  {
    var bad := InvalidPositions(raws, 0);
    if |bad| > 0 then assert bad[0] in bad; Err(InvalidRole(bad))
    else if |raws| < 1 then Err(TooFewItems)
    else
      var msgs := seq(|raws|, k requires 0 <= k < |raws| => ToMessage(raws[k]));
      assert forall k :: 0 <= k < |raws| ==> (msgs[k].role == User <==> raws[k].role == "user");
      match ValidateMessages(msgs)
      case Ok(v) => Ok(ChatInput(v))
      case Err(e) => Err(e)
  }

  /** Validation looks at roles only: two bodies with the same roles are accepted or rejected alike. */
  lemma ContentIsNotInspected(a: seq<RawMessage>, b: seq<RawMessage>)
    requires |a| == |b|
    requires forall k :: 0 <= k < |a| ==> a[k].role == b[k].role
    ensures ParseChatInput(a).Ok? <==> ParseChatInput(b).Ok?
    ensures ParseChatInput(a).Err? ==> ParseChatInput(a) == ParseChatInput(b)
  {
    var pa, pb := InvalidPositions(a, 0), InvalidPositions(b, 0);
    assert forall k :: k in pa <==> k in pb;
    SortedSameElements(pa, pb);
  }

  /** Two strictly increasing sequences with the same elements are equal. */
  lemma {:induction false} SortedSameElements(p: seq<nat>, q: seq<nat>)
    requires forall i, j :: 0 <= i < j < |p| ==> p[i] < p[j]
    requires forall i, j :: 0 <= i < j < |q| ==> q[i] < q[j]
    requires forall k :: k in p <==> k in q
    ensures p == q
  {
    assert |p| > 0 ==> p[0] in q;
    assert |q| > 0 ==> q[0] in p;
    if |p| > 0 && |q| > 0 {
      assert p[0] == q[0];
      forall k ensures k in p[1..] <==> k in q[1..] {
        if k in p[1..] {
          assert k in q && k != q[0];
        }
        if k in q[1..] {
          assert k in p && k != p[0];
        }
      }
      SortedSameElements(p[1..], q[1..]);
      assert p == [p[0]] + p[1..];
      assert q == [q[0]] + q[1..];
    }
  }
}
