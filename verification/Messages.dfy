/** Chat messages as JSON objects, and the token arithmetic every benchmark loop shares. */
module Messages {

  datatype Option<+T> = None | Some(value: T)

  /** `part in text` */
  predicate Contains(text: string, part: string) {
    part <= text || (text != [] && Contains(text[1..], part))
  }

  datatype Json =
    | Null
    | Bool(b: bool)
    | Number(n: int)
    | Text(s: string)
    | List(items: seq<Json>)
    | Object(fields: map<string, Json>)

  /** A chat message: a JSON object, compared by value. */
  datatype Message = Message(fields: map<string, Json>) {
    /** `message.get(key)` */
    function Get(key: string): Option<Json> {
      if key in fields then Some(fields[key]) else None
    }

    /** `{**message, key: value}` */
    function With(key: string, value: Json): Message {
      Message(fields[key := value])
    }
  }

  /** The tokenizer of a model: any weight for each message, and what `count_messages` adds once per list. */
  datatype Tokenizer = Tokenizer(model: string, weigh: (string, Message) -> nat, replyOverhead: nat)

  function Count(tokenizer: Tokenizer, message: Message): nat {
    tokenizer.weigh(tokenizer.model, message)
  }

  function Tokens(tokenizer: Tokenizer, messages: seq<Message>): nat {
    if messages == [] then 0
    else Tokens(tokenizer, messages[..|messages| - 1]) + Count(tokenizer, messages[|messages| - 1])
  }

  /** `count_messages`: the messages plus the overhead of the reply. */
  function ListTokens(tokenizer: Tokenizer, messages: seq<Message>): nat {
    Tokens(tokenizer, messages) + tokenizer.replyOverhead
  }

  lemma {:induction false} TokensConcat(tokenizer: Tokenizer, a: seq<Message>, b: seq<Message>)
    ensures Tokens(tokenizer, a + b) == Tokens(tokenizer, a) + Tokens(tokenizer, b)
  {
    if b == [] {
      assert a + b == a;
    } else {
      var init := b[..|b| - 1];
      TokensConcat(tokenizer, a, init);
      assert (a + b)[..|a + b| - 1] == a + init;
    }
  }

  lemma {:induction false} TokensPrefix(tokenizer: Tokenizer, messages: seq<Message>, k: nat)
    requires k <= |messages|
    ensures Tokens(tokenizer, messages[..k]) <= Tokens(tokenizer, messages)
  {
    TokensConcat(tokenizer, messages[..k], messages[k..]);
    assert messages[..k] + messages[k..] == messages;
  }

  /** How many leading messages two requests share. */
  function CommonPrefix(previous: seq<Message>, current: seq<Message>): (k: nat)
    ensures k <= |previous| && k <= |current|
    ensures previous[..k] == current[..k]
    ensures k < |previous| && k < |current| ==> previous[k] != current[k]
  {
    if previous == [] || current == [] || previous[0] != current[0] then 0
    else
      var rest := CommonPrefix(previous[1..], current[1..]);
      assert previous[..rest + 1] == [previous[0]] + previous[1..][..rest];
      assert current[..rest + 1] == [current[0]] + current[1..][..rest];
      rest + 1
  }

  /** `CommonPrefix` is the greatest shared length. */
  lemma {:induction false} CommonPrefixGreatest(previous: seq<Message>, current: seq<Message>, k: nat)
    requires k <= |previous| && k <= |current|
    ensures k <= CommonPrefix(previous, current) <==> previous[..k] == current[..k]
  {
    var c := CommonPrefix(previous, current);
    if k <= c {
      assert previous[..k] == previous[..c][..k];
      assert current[..k] == current[..c][..k];
    } else {
      assert previous[..k][c] != current[..k][c];
    }
  }

  /** The tokens a request shares with the one before it. */
  function SharedTokens(tokenizer: Tokenizer, previous: seq<Message>, current: seq<Message>): nat {
    Tokens(tokenizer, current[..CommonPrefix(previous, current)])
  }

  /** Walks two requests in step and stops at the first difference. */
  method CommonPrefixTokens(previous: seq<Message>, current: seq<Message>, tokenizer: Tokenizer) returns (common: nat)
    ensures common == SharedTokens(tokenizer, previous, current)
  {
    common := 0;
    var i := 0;
    while i < |previous| && i < |current| && previous[i] == current[i]
      invariant i <= |previous| && i <= |current|
      invariant previous[..i] == current[..i]
      invariant common == Tokens(tokenizer, current[..i])
    {
      assert current[..i + 1][..i] == current[..i];
      common := common + Count(tokenizer, current[i]);
      i := i + 1;
    }
    CommonPrefixGreatest(previous, current, i);
    if i < |previous| && i < |current| {
      assert previous[..i + 1][i] != current[..i + 1][i];
      CommonPrefixGreatest(previous, current, i + 1);
    }
  }

  lemma {:induction false} SharedTokensBounds(tokenizer: Tokenizer, previous: seq<Message>, current: seq<Message>)
    ensures SharedTokens(tokenizer, previous, current) <= Tokens(tokenizer, current)
    ensures SharedTokens(tokenizer, previous, current) <= Tokens(tokenizer, previous)
  {
    var k := CommonPrefix(previous, current);
    TokensPrefix(tokenizer, current, k);
    TokensPrefix(tokenizer, previous, k);
  }

  /** A request that extends the previous one shares all of it. */
  lemma {:induction false} SharedTokensExtension(tokenizer: Tokenizer, previous: seq<Message>, current: seq<Message>)
    requires previous <= current
    ensures SharedTokens(tokenizer, previous, current) == Tokens(tokenizer, previous)
  {
    CommonPrefixGreatest(previous, current, |previous|);
    assert previous[..|previous|] == previous == current[..|previous|];
  }
}
