/** How one chat message is shown (MessageItem.tsx): the role label, and in an
    assistant's text every `@mention` split out and highlighted. */
module MessageItem {
  import opened Wrappers
  import opened JsString
  import opened Routing

  /** The role label is shown, with the role as its text, for every role but USER. */
  function RoleLabel(role: string): (shown: Option<string>)
    ensures shown.Some? <==> role != USER
    ensures shown.Some? ==> shown.value == role
  {
    if role != USER then Some(role) else None
  }

  /** The length of the run of non-white-space characters starting at `i` (`\S+`
      taken greedily). */
  function RunLen(s: string, i: nat): (n: nat)
    requires i <= |s|
    ensures i + n <= |s|
    ensures forall k :: i <= k < i + n ==> !IsWhitespace(s[k])
    ensures i + n == |s| || IsWhitespace(s[i + n])
    decreases |s| - i
  {
    if i < |s| && !IsWhitespace(s[i]) then 1 + RunLen(s, i + 1) else 0
  }

  /** The pattern `@\S+` matches at `q`. */
  predicate MentionAt(s: string, q: nat) {
    q + 1 < |s| && s[q] == '@' && !IsWhitespace(s[q + 1])
  }

  /** `s.split(/(@\S+)/g)` from the piece starting at `p`, with the search at `q`:
      the text before each match and the match itself, in turn, then the rest. */
  function Pieces(s: string, p: nat, q: nat): (r: seq<string>)
    requires p <= q <= |s|
    ensures |r| >= 1
    decreases |s| - q
  {
    if q >= |s| then [s[p..]]
    else if MentionAt(s, q) then
      var e := q + 1 + RunLen(s, q + 1);
      [s[p..q], s[q..e]] + Pieces(s, e, e)
    else Pieces(s, p, q + 1)
  }

  function SplitMentions(content: string): seq<string> {
    Pieces(content, 0, 0)
  }

  /** The parts put back together give the text from `p` on. */
  lemma {:induction false} PiecesConcat(s: string, p: nat, q: nat)
    requires p <= q <= |s|
    ensures Concat(Pieces(s, p, q)) == s[p..]
    decreases |s| - q
  {
    if q >= |s| {
      ConcatCons(s[p..], []);
    } else if MentionAt(s, q) {
      var e := q + 1 + RunLen(s, q + 1);
      var rest := Pieces(s, e, e);
      PiecesConcat(s, e, e);
      ConcatCons(s[q..e], rest);
      ConcatCons(s[p..q], [s[q..e]] + rest);
      PiecesAtMention(s, p, q);
      SliceJoin(s, q, e);
      SliceJoin(s, p, q);
      assert Concat(Pieces(s, p, q)) == s[p..q] + (s[q..e] + s[e..]);
    } else {
      PiecesConcat(s, p, q + 1);
    }
  }

  /** At a match the text before it and the match are split off. */
  lemma PiecesAtMention(s: string, p: nat, q: nat)
    requires p <= q < |s| && MentionAt(s, q)
    ensures var e := q + 1 + RunLen(s, q + 1);
      Pieces(s, p, q) == [s[p..q], s[q..e]] + Pieces(s, e, e)
    ensures var e := q + 1 + RunLen(s, q + 1);
      Pieces(s, p, q) == [s[p..q]] + ([s[q..e]] + Pieces(s, e, e))
  {
    var e := q + 1 + RunLen(s, q + 1);
    assert [s[p..q], s[q..e]] + Pieces(s, e, e) == [s[p..q]] + ([s[q..e]] + Pieces(s, e, e));
  }

  /** The text from `i` on is the stretch up to `j` followed by the rest. */
  lemma SliceJoin(s: string, i: nat, j: nat)
    requires i <= j <= |s|
    ensures s[i..] == s[i..j] + s[j..]
  {
  }

  /** The first part is a stretch of the text from `p` on that reaches at least to `q`
      and in which no match starts. */
  lemma {:induction false} PiecesHead(s: string, p: nat, q: nat)
    requires p <= q <= |s| && forall k :: p <= k < q ==> !MentionAt(s, k)
    ensures var h := Pieces(s, p, q)[0];
      && q - p <= |h| && p + |h| <= |s| && h == s[p..p + |h|]
      && forall k :: p <= k < p + |h| ==> !MentionAt(s, k)
    decreases |s| - q
  {
    if q < |s| && !MentionAt(s, q) {
      PiecesHead(s, p, q + 1);
    }
  }

  /** `text` holds no match of `@\S+`. */
  predicate NoMention(text: string) {
    forall j :: 0 <= j < |text| - 1 && text[j] == '@' ==> IsWhitespace(text[j + 1])
  }

  /** `part` is `@` followed by a non-empty run of non-white-space characters. */
  predicate Mention(part: string) {
    |part| >= 2 && part[0] == '@' && forall j :: 1 <= j < |part| ==> !IsWhitespace(part[j])
  }

  lemma HeadHasNoMention(s: string, p: nat, q: nat)
    requires p <= q <= |s| && forall k :: p <= k < q ==> !MentionAt(s, k)
    ensures NoMention(Pieces(s, p, q)[0])
  {
    PiecesHead(s, p, q);
    var h := Pieces(s, p, q)[0];
    forall j | 0 <= j < |h| - 1 && h[j] == '@' ensures IsWhitespace(h[j + 1]) {
      assert h[j] == s[p + j] && h[j + 1] == s[p + j + 1];
      assert !MentionAt(s, p + j);
    }
  }

  /** After a match the text goes on with white space, or it has ended. */
  lemma AfterMention(s: string, e: nat)
    requires e <= |s| && (e == |s| || IsWhitespace(s[e]))
    ensures Continues(Pieces(s, e, e), 0)
  {
    if e < |s| {
      assert !MentionAt(s, e);
      PiecesHead(s, e, e + 1);
    }
  }

  /** The parts alternate between text and matches, starting and ending with text:
      each text part holds no match, each match is `@` followed by non-white-space
      characters, and the part after a match is empty only at the end and otherwise
      starts with white space, so the match took the longest run there. */
  predicate Alternates(r: seq<string>) {
    && |r| % 2 == 1
    && (forall i :: 0 <= i < |r| && i % 2 == 0 ==> NoMention(r[i]))
    && (forall i :: 0 <= i < |r| && i % 2 == 1 ==> Mention(r[i]))
    && (forall i :: 2 <= i < |r| && i % 2 == 0 ==> Continues(r, i))
  }

  /** The text part at `i`, after a match: empty only when it is the last, else
      opening with white space. */
  predicate Continues(r: seq<string>, i: nat)
    requires i < |r|
  {
    (r[i] == "" ==> i == |r| - 1) && (r[i] != "" ==> IsWhitespace(r[i][0]))
  }

  lemma AlternatesCons(a: string, b: string, rest: seq<string>)
    requires NoMention(a) && Mention(b) && Alternates(rest) && Continues(rest, 0)
    ensures Alternates([a, b] + rest)
  {
    var r := [a, b] + rest;
    forall i | 0 <= i < |r| && i % 2 == 0 ensures NoMention(r[i]) {
      if i > 0 { assert r[i] == rest[i - 2]; }
    }
    forall i | 0 <= i < |r| && i % 2 == 1 ensures Mention(r[i]) {
      if i > 1 { assert r[i] == rest[i - 2]; }
    }
    forall i | 2 <= i < |r| && i % 2 == 0 ensures Continues(r, i) {
      assert r[i] == rest[i - 2];
      assert Continues(rest, i - 2);
    }
  }

  lemma MatchIsMention(s: string, q: nat)
    requires q < |s| && MentionAt(s, q)
    ensures Mention(s[q..q + 1 + RunLen(s, q + 1)])
  {
    var m := s[q..q + 1 + RunLen(s, q + 1)];
    forall j | 1 <= j < |m| ensures !IsWhitespace(m[j]) {
      assert m[j] == s[q + j];
    }
  }

  /** `s.split(/(@\S+)/g)` alternates between text and matches. */
  lemma {:induction false} PiecesShape(s: string, p: nat, q: nat)
    requires p <= q <= |s| && forall k :: p <= k < q ==> !MentionAt(s, k)
    ensures Alternates(Pieces(s, p, q))
    decreases |s| - q
  {
    if q >= |s| {
      HeadHasNoMention(s, p, q);
      assert Pieces(s, p, q) == [s[p..]];
    } else if MentionAt(s, q) {
      PiecesShape(s, q + 1 + RunLen(s, q + 1), q + 1 + RunLen(s, q + 1));
      ShapeAtMention(s, p, q);
    } else {
      assert Pieces(s, p, q) == Pieces(s, p, q + 1);
      PiecesShape(s, p, q + 1);
    }
  }

  /** At a match, the split alternates if the split after the match does. */
  lemma ShapeAtMention(s: string, p: nat, q: nat)
    requires p <= q < |s| && MentionAt(s, q) && forall k :: p <= k < q ==> !MentionAt(s, k)
    requires var e := q + 1 + RunLen(s, q + 1); Alternates(Pieces(s, e, e))
    ensures Alternates(Pieces(s, p, q))
  {
    var e := q + 1 + RunLen(s, q + 1);
    var rest := Pieces(s, e, e);
    PiecesAtMention(s, p, q);
    HeadHasNoMention(s, p, q);
    assert NoMention(s[p..q]);
    MatchIsMention(s, q);
    AfterMention(s, e);
    AlternatesCons(s[p..q], s[q..e], rest);
  }

  /** Only a part that starts with `@` is highlighted (`part.startsWith('@')`). */
  datatype Span = Plain(text: string) | Highlighted(text: string)

  function SpanOf(part: string): (span: Span)
    ensures span.text == part
    ensures span.Highlighted? <==> StartsWith(part, "@")
  {
    if StartsWith(part, "@") then Highlighted(part) else Plain(part)
  }

  /** The spans of the message text: nothing for an empty text; the split, part by
      part, for an assistant's text containing `@`; otherwise the text as it is. */
  function Render(isAssistant: bool, content: string): (spans: seq<Span>)
    ensures content == "" <==> spans == []
    ensures (exists i :: 0 <= i < |spans| && spans[i].Highlighted?) ==> isAssistant && '@' in content
  {
    if content == "" then []
    else if isAssistant && '@' in content then
      var parts := SplitMentions(content);
      seq(|parts|, i requires 0 <= i < |parts| => SpanOf(parts[i]))
    else [Plain(content)]
  }

  function Texts(spans: seq<Span>): seq<string> {
    seq(|spans|, i requires 0 <= i < |spans| => spans[i].text)
  }

  /** The spans spell out the message text exactly. */
  lemma RenderSpells(isAssistant: bool, content: string)
    ensures Concat(Texts(Render(isAssistant, content))) == content
  {
    if content != "" {
      if isAssistant && '@' in content {
        PiecesConcat(content, 0, 0);
        assert Texts(Render(isAssistant, content)) == SplitMentions(content);
      } else {
        assert Texts([Plain(content)]) == [content];
        assert Concat([content]) == Concat([]) + content;
      }
    }
  }

  /** In an assistant's text with a `@`, every match is highlighted, and no text
      part after a match is. */
  lemma HighlightedMatches(content: string)
    requires content != "" && '@' in content
    ensures var spans := Render(true, content);
      && (forall i :: 0 <= i < |spans| && i % 2 == 1 ==> spans[i].Highlighted?)
      && (forall i :: 2 <= i < |spans| && i % 2 == 0 ==> spans[i].Plain?)
  {
    var parts := SplitMentions(content);
    PiecesShape(content, 0, 0);
    var spans := Render(true, content);
    forall i | 0 <= i < |spans| && i % 2 == 1 ensures spans[i].Highlighted? {
      assert Mention(parts[i]);
      assert parts[i][..1] == "@";
    }
    forall i | 2 <= i < |spans| && i % 2 == 0 ensures spans[i].Plain? {
      assert Continues(parts, i);
    }
  }

  /** The leading text part is highlighted exactly when the text starts with a `@`
      that white space, or nothing, follows. */
  lemma HighlightedLead(content: string)
    requires content != "" && '@' in content
    ensures Render(true, content)[0].Highlighted? <==> content[0] == '@' && !MentionAt(content, 0)
  {
    var parts := SplitMentions(content);
    var spans := Render(true, content);
    assert spans[0] == SpanOf(parts[0]);
    if MentionAt(content, 0) {
      assert parts[0] == "";
    } else {
      PiecesHead(content, 0, 1);
      assert Pieces(content, 0, 0) == Pieces(content, 0, 1);
      assert parts[0][..1] == content[..1];
    }
  }
}
