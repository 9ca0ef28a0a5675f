/** When only the last message of a conversation has grown: splitting off what was appended, and
    putting it back onto the message as it was forwarded. */
module Delta {
  import opened Messages

  // ----- Contents that grow -----

  /** Two texts, or two lists of blocks. */
  predicate SameKind(a: Option<Json>, b: Option<Json>) {
    && a.Some? && b.Some?
    && ((a.value.Text? && b.value.Text?) || (a.value.List? && b.value.List?))
  }

  /** `whole` starts with `base`. */
  predicate ContentExtends(base: Option<Json>, whole: Option<Json>) {
    && SameKind(base, whole)
    && match base.value
       case Text(s) => s <= whole.value.s
       case List(items) => items <= whole.value.items
       case _ => false
  }

  function Appended(base: Option<Json>, whole: Option<Json>): Json
    requires ContentExtends(base, whole)
  {
    match base.value
    case Text(s) => Text(whole.value.s[|s|..])
    case List(items) => List(whole.value.items[|items|..])
    case _ => Null
  }

  predicate IsEmpty(content: Json) {
    content == Text("") || content == List([])
  }

  function Append(base: Option<Json>, more: Option<Json>): Json
    requires SameKind(base, more)
  {
    match base.value
    case Text(s) => Text(s + more.value.s)
    case List(items) => List(items + more.value.items)
    case _ => Null
  }

  /** What was split off goes back where it was. */
  lemma AppendedGoesBack(base: Option<Json>, whole: Option<Json>)
    requires ContentExtends(base, whole)
    ensures SameKind(base, Some(Appended(base, whole)))
    ensures Some(Append(base, Some(Appended(base, whole)))) == whole
  {
    match base.value
    case Text(s) => assert s + whole.value.s[|s|..] == whole.value.s;
    case List(items) => assert items + whole.value.items[|items|..] == whole.value.items;
  }

  lemma AppendExtends(base: Option<Json>, more: Option<Json>)
    requires SameKind(base, more)
    ensures ContentExtends(base, Some(Append(base, more)))
  {
  }

  lemma AppendCancels(a: Option<Json>, b: Option<Json>, more: Option<Json>)
    requires SameKind(a, more) && SameKind(b, more)
    ensures Append(a, more) == Append(b, more) <==> a == b
  {
    if Append(a, more) == Append(b, more) {
      match more.value
      case Text(t) =>
        var x, y := a.value.s, b.value.s;
        assert |x + t| == |y + t|;
        assert (x + t)[..|x|] == x && (y + t)[..|x|] == y;
      case List(t) =>
        var x, y := a.value.items, b.value.items;
        assert |x + t| == |y + t|;
        assert (x + t)[..|x|] == x && (y + t)[..|x|] == y;
    }
  }

  lemma AppendNothing(base: Option<Json>, more: Json)
    requires SameKind(base, Some(more)) && IsEmpty(more)
    ensures Append(base, Some(more)) == base.value
  {
    match base.value
    case Text(s) => assert s + "" == s;
    case List(items) => assert items + [] == items;
  }

  lemma ContentExtendsTransitive(a: Option<Json>, b: Option<Json>, c: Option<Json>)
    requires ContentExtends(a, b) && ContentExtends(b, c)
    ensures ContentExtends(a, c)
  {
  }

  // ----- Splitting and merging -----

  const ROLE := "role"
  const CONTENT := "content"

  /** The forwarded messages before the last, the last as forwarded, and at most one message that holds what was
      appended. */
  datatype Suffix = Suffix(prefix: seq<Message>, last: Message, delta: seq<Message>)

  function Last(messages: seq<Message>): Message
    requires messages != []
  {
    messages[|messages| - 1]
  }

  function Init(messages: seq<Message>): seq<Message>
    requires messages != []
  {
    messages[..|messages| - 1]
  }

  /** Only the last message differs, by content appended to it, and all three last messages are of one role and kind. */
  predicate LastGrew(current: seq<Message>, original: seq<Message>, forwarded: seq<Message>) {
    && current != [] && |current| == |original| == |forwarded|
    && Init(current) == Init(original)
    && Last(current).Get(ROLE) == Last(original).Get(ROLE) == Last(forwarded).Get(ROLE)
    && ContentExtends(Last(original).Get(CONTENT), Last(current).Get(CONTENT))
    && SameKind(Last(forwarded).Get(CONTENT), Last(current).Get(CONTENT))
  }

  /** `_extract_cache_stable_last_message_suffix` */
  function ExtractSuffix(current: seq<Message>, previousOriginal: Option<seq<Message>>,
                         previousForwarded: Option<seq<Message>>): (r: Option<Suffix>)
    ensures r.Some? <==> && previousOriginal.Some? && previousForwarded.Some?
                         && LastGrew(current, previousOriginal.value, previousForwarded.value)
  {
    if previousOriginal.None? || previousOriginal.value == [] || previousForwarded.None? then None
    else
      var original, forwarded := previousOriginal.value, previousForwarded.value;
      if |current| != |original| || |forwarded| != |original| || current == [] then None
      else if |current| > 1 && Init(current) != Init(original) then None
      else if Last(current).Get(ROLE) != Last(original).Get(ROLE)
        || Last(current).Get(ROLE) != Last(forwarded).Get(ROLE) then None
      else
        match (Last(current).Get(CONTENT), Last(original).Get(CONTENT), Last(forwarded).Get(CONTENT))
        case (Some(Text(now)), Some(Text(before)), Some(Text(_))) =>
          if before <= now then
            var suffix := now[|before|..];
            Some(Suffix(Init(forwarded), Last(forwarded),
                        if suffix != "" then [Last(current).With(CONTENT, Text(suffix))] else []))
          else None
        case (Some(List(now)), Some(List(before)), Some(List(_))) =>
          if |now| >= |before| && now[..|before|] == before then
            var blocks := now[|before|..];
            Some(Suffix(Init(forwarded), Last(forwarded),
                        if blocks != [] then [Last(current).With(CONTENT, List(blocks))] else []))
          else None
        case _ => None
  }

  /** `_merge_appended_message_delta` */
  function MergeAppended(previous: Message, delta: Option<Message>): (r: Option<Message>)
    ensures r.Some? <==> delta.None? || (&& previous.Get(ROLE) == delta.value.Get(ROLE)
                                         && SameKind(previous.Get(CONTENT), delta.value.Get(CONTENT)))
  {
    if delta.None? then Some(previous)
    else if previous.Get(ROLE) != delta.value.Get(ROLE) then None
    else
      match (previous.Get(CONTENT), delta.value.Get(CONTENT))
      case (Some(Text(before)), Some(Text(more))) => Some(previous.With(CONTENT, Text(before + more)))
      case (Some(List(before)), Some(List(more))) => Some(previous.With(CONTENT, List(before + more)))
      case _ => None
  }

  // ----- Splitting, compressing and merging -----

  /** The request rebuilt from the last one as forwarded and the compressed rest, where that is possible. */
  function Rebuild(compress: Message -> Message, current: seq<Message>, original: seq<Message>,
                   forwarded: seq<Message>): Option<seq<Message>> {
    match ExtractSuffix(current, Some(original), Some(forwarded))
    case None => None
    case Some(suffix) =>
      match MergeAppended(suffix.last, if suffix.delta == [] then None else Some(compress(suffix.delta[0])))
      case None => None
      case Some(merged) => Some(suffix.prefix + [merged])
  }

  function AppendedPart(current: seq<Message>, original: seq<Message>, forwarded: seq<Message>): Json
    requires LastGrew(current, original, forwarded)
  {
    Appended(Last(original).Get(CONTENT), Last(current).Get(CONTENT))
  }

  /** The message the compressor gets to see. */
  function DeltaMessage(current: seq<Message>, original: seq<Message>, forwarded: seq<Message>): Message
    requires LastGrew(current, original, forwarded)
  {
    Last(current).With(CONTENT, AppendedPart(current, original, forwarded))
  }

  /** The split, when there is one. */
  lemma SplitOf(current: seq<Message>, original: seq<Message>, forwarded: seq<Message>)
    requires LastGrew(current, original, forwarded)
    ensures ExtractSuffix(current, Some(original), Some(forwarded))
         == Some(Suffix(Init(forwarded), Last(forwarded),
                        if IsEmpty(AppendedPart(current, original, forwarded)) then []
                          else [DeltaMessage(current, original, forwarded)]))
  {
  }

  /** `later` has the messages of `earlier`, with content appended to the last one. */
  predicate Keeps(earlier: seq<Message>, later: seq<Message>) {
    && earlier != [] && |earlier| == |later| && Init(earlier) == Init(later)
    && ContentExtends(Last(earlier).Get(CONTENT), Last(later).Get(CONTENT))
  }

  lemma KeepsTransitive(a: seq<Message>, b: seq<Message>, c: seq<Message>)
    requires Keeps(a, b) && Keeps(b, c)
    ensures Keeps(a, c)
  {
    ContentExtendsTransitive(Last(a).Get(CONTENT), Last(b).Get(CONTENT), Last(c).Get(CONTENT));
  }

  /** Whatever the compressor does, the rebuilt request is the last one as forwarded with content
      appended to its last message. */
  lemma RebuiltExtendsForwarded(compress: Message -> Message, current: seq<Message>, original: seq<Message>,
                                forwarded: seq<Message>)
    requires Rebuild(compress, current, original, forwarded).Some?
    ensures Keeps(forwarded, Rebuild(compress, current, original, forwarded).value)
  {
    var suffix := ExtractSuffix(current, Some(original), Some(forwarded)).value;
    SplitOf(current, original, forwarded);
    if suffix.delta != [] {
      AppendExtends(Last(forwarded).Get(CONTENT), compress(suffix.delta[0]).Get(CONTENT));
    }
  }

  /** Rebuilding works exactly when the last message grew and the compressor keeps the role and the
      kind of content of what was appended, if anything was. */
  lemma RebuildsExactlyWhen(compress: Message -> Message, current: seq<Message>, original: seq<Message>,
                            forwarded: seq<Message>)
    ensures Rebuild(compress, current, original, forwarded).Some?
       <==> && LastGrew(current, original, forwarded)
            && (IsEmpty(AppendedPart(current, original, forwarded)) ||
                (&& compress(DeltaMessage(current, original, forwarded)).Get(ROLE) == Last(forwarded).Get(ROLE)
                 && SameKind(compress(DeltaMessage(current, original, forwarded)).Get(CONTENT),
                             Last(forwarded).Get(CONTENT))))
  {
    if LastGrew(current, original, forwarded) {
      SplitOf(current, original, forwarded);
    }
  }

  // ----- A delta left unchanged -----

  function Unchanged(message: Message): Message {
    message
  }

  /** Everything in a message but its content. */
  function Frame(message: Message): map<string, Json> {
    message.fields - {CONTENT}
  }

  lemma MessageByParts(a: Message, b: Message)
    ensures a == b <==> Frame(a) == Frame(b) && a.Get(CONTENT) == b.Get(CONTENT)
  {
    if Frame(a) == Frame(b) && a.Get(CONTENT) == b.Get(CONTENT) {
      forall key
        ensures key in a.fields <==> key in b.fields
        ensures key in a.fields && key in b.fields ==> a.fields[key] == b.fields[key]
      {
        assert key != CONTENT ==> (key in Frame(a) <==> key in a.fields) && (key in Frame(b) <==> key in b.fields);
        assert key != CONTENT && key in a.fields ==> Frame(a)[key] == a.fields[key];
        assert key != CONTENT && key in b.fields ==> Frame(b)[key] == b.fields[key];
      }
      assert a.fields == b.fields;
    }
  }

  /** An unchanged delta always merges: the forwarded message keeps its frame and what was appended
      to the original is appended to it. */
  lemma UnchangedDeltaMerges(current: seq<Message>, original: seq<Message>, forwarded: seq<Message>)
    requires LastGrew(current, original, forwarded)
    ensures Rebuild(Unchanged, current, original, forwarded).Some?
    ensures var rebuilt := Rebuild(Unchanged, current, original, forwarded).value;
            && |rebuilt| == |forwarded| && Init(rebuilt) == Init(forwarded)
            && Frame(Last(rebuilt)) == Frame(Last(forwarded))
            && SameKind(Last(forwarded).Get(CONTENT), Some(AppendedPart(current, original, forwarded)))
            && Last(rebuilt).Get(CONTENT)
              == Some(Append(Last(forwarded).Get(CONTENT), Some(AppendedPart(current, original, forwarded))))
  {
    SplitOf(current, original, forwarded);
    RebuildsExactlyWhen(Unchanged, current, original, forwarded);
    AppendedGoesBack(Last(original).Get(CONTENT), Last(current).Get(CONTENT));
    if IsEmpty(AppendedPart(current, original, forwarded)) {
      AppendNothing(Last(forwarded).Get(CONTENT), AppendedPart(current, original, forwarded));
    }
  }

  /** The content is restored exactly when it had been forwarded unmodified. */
  lemma ContentRestoredExactlyWhen(current: seq<Message>, original: seq<Message>, forwarded: seq<Message>)
    requires LastGrew(current, original, forwarded)
    ensures var rebuilt := Rebuild(Unchanged, current, original, forwarded);
            && rebuilt.Some? && rebuilt.value != []
            && (Last(rebuilt.value).Get(CONTENT) == Last(current).Get(CONTENT)
                <==> Last(forwarded).Get(CONTENT) == Last(original).Get(CONTENT))
  {
    UnchangedDeltaMerges(current, original, forwarded);
    var before, now := Last(original).Get(CONTENT), Last(current).Get(CONTENT);
    AppendedGoesBack(before, now);
    AppendCancels(Last(forwarded).Get(CONTENT), before, Some(Appended(before, now)));
  }

  /** The request is restored exactly when the last one had been forwarded unmodified, but for
      fields of its last message that the current one must share. */
  lemma RequestRestoredExactlyWhen(current: seq<Message>, original: seq<Message>, forwarded: seq<Message>)
    requires LastGrew(current, original, forwarded)
    ensures Rebuild(Unchanged, current, original, forwarded) == Some(current)
       <==> && Init(forwarded) == Init(original)
            && Last(forwarded).Get(CONTENT) == Last(original).Get(CONTENT)
            && Frame(Last(forwarded)) == Frame(Last(current))
  {
    UnchangedDeltaMerges(current, original, forwarded);
    ContentRestoredExactlyWhen(current, original, forwarded);
    var rebuilt := Rebuild(Unchanged, current, original, forwarded).value;
    MessageByParts(Last(rebuilt), Last(current));
    assert current == Init(current) + [Last(current)];
    assert rebuilt == Init(rebuilt) + [Last(rebuilt)];
  }

  // ----- A whole run of growing requests -----

  ghost predicate RebuiltAt(compress: Message -> Message, conversation: seq<seq<Message>>, sent: seq<seq<Message>>,
                            i: nat)
    requires 0 < i < |sent| <= |conversation|
  {
    Rebuild(compress, conversation[i], conversation[i - 1], sent[i - 1]) == Some(sent[i])
  }

  /** Every request but the first was rebuilt from the one sent before it. */
  ghost predicate Run(compress: Message -> Message, conversation: seq<seq<Message>>, sent: seq<seq<Message>>) {
    && |sent| <= |conversation|
    && forall i :: 0 < i < |sent| ==> RebuiltAt(compress, conversation, sent, i)
  }

  /** However the compressor works, a later request keeps all that an earlier one sent: the same
      messages before the last, and a last message that starts with the earlier content. */
  lemma {:induction false} RunKeepsWhatWasSent(compress: Message -> Message, conversation: seq<seq<Message>>,
                                               sent: seq<seq<Message>>, i: nat, j: nat)
    requires Run(compress, conversation, sent) && i < j < |sent|
    ensures Keeps(sent[i], sent[j])
  {
    assert RebuiltAt(compress, conversation, sent, j);
    RebuiltExtendsForwarded(compress, conversation[j], conversation[j - 1], sent[j - 1]);
    if i < j - 1 {
      RunKeepsWhatWasSent(compress, conversation, sent, i, j - 1);
      KeepsTransitive(sent[i], sent[j - 1], sent[j]);
    }
  }

  /** The last message changes nothing but its content. */
  ghost predicate SameFrame(conversation: seq<seq<Message>>, i: nat)
    requires 0 < i < |conversation|
  {
    && conversation[i] != [] && conversation[i - 1] != []
    && Frame(Last(conversation[i])) == Frame(Last(conversation[i - 1]))
  }

  lemma {:induction false} RunRestores(conversation: seq<seq<Message>>, sent: seq<seq<Message>>, k: nat)
    requires Run(Unchanged, conversation, sent) && k < |sent| == |conversation| && sent[0] == conversation[0]
    requires forall i :: 0 < i < |conversation| ==> SameFrame(conversation, i)
    ensures forall i :: 0 <= i <= k ==> sent[i] == conversation[i]
  {
    if k > 0 {
      RunRestores(conversation, sent, k - 1);
      assert RebuiltAt(Unchanged, conversation, sent, k) && SameFrame(conversation, k);
      RebuildsExactlyWhen(Unchanged, conversation[k], conversation[k - 1], sent[k - 1]);
      RequestRestoredExactlyWhen(conversation[k], conversation[k - 1], sent[k - 1]);
    }
  }

  /** A run whose deltas are left alone sends the conversation as it is exactly when its first
      request was sent unmodified and the last message never changes anything but its content. */
  lemma {:induction false} RunRestoresExactlyWhen(conversation: seq<seq<Message>>, sent: seq<seq<Message>>)
    requires Run(Unchanged, conversation, sent) && |sent| == |conversation| > 0
    ensures sent == conversation
       <==> sent[0] == conversation[0] && forall i :: 0 < i < |conversation| ==> SameFrame(conversation, i)
  {
    if sent == conversation {
      forall i | 0 < i < |sent|
        ensures SameFrame(conversation, i)
      {
        assert RebuiltAt(Unchanged, conversation, sent, i);
        RebuildsExactlyWhen(Unchanged, conversation[i], conversation[i - 1], sent[i - 1]);
        RequestRestoredExactlyWhen(conversation[i], conversation[i - 1], sent[i - 1]);
      }
    }
    if sent[0] == conversation[0] && forall i :: 0 < i < |conversation| ==> SameFrame(conversation, i) {
      RunRestores(conversation, sent, |sent| - 1);
    }
  }
}
