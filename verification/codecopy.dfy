/**
  The text the "Copy Response" button puts on the clipboard
  (frontend/src/components/ChatBot.jsx). The global lazy match of
  /```([\s\S]*?)```/ is written as an explicit scanner: at each index, a
  fence opens a block that the first later fence closes, and the scan resumes
  after the closing fence; where no block opens, the scan moves on by one
  character. Each match with its fences removed is one block; the blocks are
  joined with a blank line, and a text without any block is copied whole.
 */
module CodeCopy {
  import opened JsText

  /** Three backticks start at index `i`. */
  predicate FenceAt(s: string, i: int) {
    0 <= i && i + 3 <= |s| && s[i] == '`' && s[i + 1] == '`' && s[i + 2] == '`'
  }

  predicate FenceFree(s: string) {
    forall j | 0 <= j < |s| :: !FenceAt(s, j)
  }

  /** Index of the first fence in `s`. */
  function FirstFence(s: string): (r: Option<nat>)
    ensures r.Some? ==> FenceAt(s, r.value) && forall j | 0 <= j < r.value :: !FenceAt(s, j)
    ensures r.None? ==> FenceFree(s)
    decreases |s|
  {
    if |s| < 3 then None
    else if FenceAt(s, 0) then Some(0)
    else
      var rest := FirstFence(s[1..]);
      assert forall j | 1 <= j :: FenceAt(s, j) == FenceAt(s[1..], j - 1);
      match rest
      case None => None
      case Some(k) => Some(k + 1)
  }

  /** A match body: no fence inside, and no backtick at its end, since a
      backtick there would make the closing fence start one place earlier. */
  predicate MatchBody(body: string) {
    FenceFree(body) && (body == "" || body[|body| - 1] != '`')
  }

  /** The bodies of the matches, in order. */
  function Blocks(s: string): (r: seq<string>)
    ensures forall i | 0 <= i < |r| :: MatchBody(r[i])
    decreases |s|
  {
    if |s| < 3 then []
    else if FenceAt(s, 0) then
      match FirstFence(s[3..])
      case Some(k) =>
        var body := s[3..3 + k];
        assert forall j :: FenceAt(body, j) ==> FenceAt(s[3..], j);
        assert k > 0 ==> !FenceAt(s[3..], k - 1);
        [body] + Blocks(s[3 + k + 3..])
      case None => Blocks(s[1..])
    else Blocks(s[1..])
  }

  /** `replace(/```/g, '')`: every fence removed, scanning left to right. */
  function StripFences(s: string): (r: string)
    ensures |r| <= |s|
    decreases |s|
  {
    if |s| < 3 then s
    else if FenceAt(s, 0) then StripFences(s[3..])
    else [s[0]] + StripFences(s[1..])
  }

  /** Removing the fences from a whole match gives back its body, so the
      blocks are exactly what each match leaves once its fences are gone. */
  lemma {:induction false} StripFencesOfMatch(body: string)
    requires MatchBody(body)
    ensures StripFences(Fenced(body)) == body
  {
    assert Fenced(body)[3..] == body + "```";
    StripClosingFence(body);
  }

  /** A non-empty match body followed by anything does not start with a
      fence, and dropping its first character leaves a match body. */
  lemma MatchBodyStep(b: string, t: string)
    requires MatchBody(b) && |b| > 0
    ensures !FenceAt(b + t, 0)
    ensures MatchBody(b[1..])
    ensures (b + t)[1..] == b[1..] + t
  {
    var s := b + t;
    if |b| >= 3 {
      assert !FenceAt(b, 0);
      assert s[0] == b[0] && s[1] == b[1] && s[2] == b[2];
    } else {
      assert s[|b| - 1] == b[|b| - 1];
    }
    var b' := b[1..];
    forall j | 0 <= j < |b'| && j + 3 <= |b'|
      ensures !FenceAt(b', j)
    {
      assert !FenceAt(b, j + 1);
      assert b'[j] == b[j + 1] && b'[j + 1] == b[j + 2] && b'[j + 2] == b[j + 3];
    }
    assert b' != "" ==> b'[|b'| - 1] == b[|b| - 1];
  }

  lemma {:induction false} StripClosingFence(b: string)
    requires MatchBody(b)
    ensures StripFences(b + "```") == b
    decreases |b|
  {
    var s := b + "```";
    if |b| == 0 {
      assert s == "```";
      assert FenceAt(s, 0);
      assert s[3..] == "";
    } else {
      MatchBodyStep(b, "```");
      StripClosingFence(b[1..]);
      assert [b[0]] + b[1..] == b;
    }
  }

  /** Every block the scanner returns is its match with the fences removed. */
  lemma BlocksAreStrippedMatches(s: string)
    ensures forall i | 0 <= i < |Blocks(s)| :: StripFences(Fenced(Blocks(s)[i])) == Blocks(s)[i]
  {
    forall i | 0 <= i < |Blocks(s)|
      ensures StripFences(Fenced(Blocks(s)[i])) == Blocks(s)[i]
    {
      StripFencesOfMatch(Blocks(s)[i]);
    }
  }

  /** There are two non-overlapping fences, so the pattern matches somewhere. */
  predicate HasFencedBlock(s: string) {
    exists i, j | 0 <= i < j < |s| :: FenceAt(s, i) && FenceAt(s, j) && i + 3 <= j
  }

  /** A fence in a suffix is a fence of the whole text, `d` places later. */
  lemma FenceInSuffix(s: string, d: nat, j: int)
    requires d <= |s|
    ensures FenceAt(s[d..], j) <==> (0 <= j && FenceAt(s, j + d))
  {
    if 0 <= j && j + 3 <= |s| - d {
      assert s[d..][j] == s[j + d] && s[d..][j + 1] == s[j + d + 1] && s[d..][j + 2] == s[j + d + 2];
    }
  }

  /** Dropping a first character that does not open a block keeps the answer. */
  lemma FencedBlockShift(s: string)
    requires |s| > 0
    requires !FenceAt(s, 0)
    ensures HasFencedBlock(s) <==> HasFencedBlock(s[1..])
  {
    if HasFencedBlock(s) {
      var i, j :| 0 <= i < j < |s| && FenceAt(s, i) && FenceAt(s, j) && i + 3 <= j;
      FenceInSuffix(s, 1, i - 1);
      FenceInSuffix(s, 1, j - 1);
      assert 0 <= i - 1 < j - 1 < |s[1..]|;
    }
    if HasFencedBlock(s[1..]) {
      var i, j :| 0 <= i < j < |s[1..]| && FenceAt(s[1..], i) && FenceAt(s[1..], j) && i + 3 <= j;
      FenceInSuffix(s, 1, i);
      FenceInSuffix(s, 1, j);
      assert 0 <= i + 1 < j + 1 < |s|;
    }
  }

  /** The scanner finds a block exactly when two non-overlapping fences exist. */
  lemma {:induction false} BlocksEmptyIffNoFencedBlock(s: string)
    ensures Blocks(s) == [] <==> !HasFencedBlock(s)
    decreases |s|
  {
    if |s| < 3 {
    } else if FenceAt(s, 0) {
      var t := s[3..];
      match FirstFence(t)
      case Some(k) =>
        FenceInSuffix(s, 3, k);
        assert 0 < k + 3 < |s|;
      case None =>
        BlocksEmptyIffNoFencedBlock(s[1..]);
        assert !HasFencedBlock(s[1..]) by {
          if HasFencedBlock(s[1..]) {
            var i, j :| 0 <= i < j < |s[1..]| && FenceAt(s[1..], i) && FenceAt(s[1..], j) && i + 3 <= j;
            FenceInSuffix(s, 1, j);
            FenceInSuffix(s, 3, j - 2);
          }
        }
        assert !HasFencedBlock(s) by {
          if HasFencedBlock(s) {
            var i, j :| 0 <= i < j < |s| && FenceAt(s, i) && FenceAt(s, j) && i + 3 <= j;
            FenceInSuffix(s, 3, j - 3);
          }
        }
    } else {
      FencedBlockShift(s);
      BlocksEmptyIffNoFencedBlock(s[1..]);
    }
  }

  /** `handleCopyCode`'s clipboard text. */
  function CopyText(text: string): (r: string)
    ensures !HasFencedBlock(text) ==> r == text
    ensures HasFencedBlock(text) ==> r == Join(Blocks(text), "\n\n")
  {
    BlocksEmptyIffNoFencedBlock(text);
    var blocks := Blocks(text);
    if |blocks| > 0 then Join(blocks, "\n\n") else text
  }

  /** A text without any fence is copied unchanged. */
  lemma FenceFreeTextCopiedWhole(text: string)
    requires FenceFree(text)
    ensures CopyText(text) == text
  {
  }

  /** A stretch of prose and the code block after it. */
  datatype Segment = Segment(prose: string, code: string)

  /** Neither prose nor code holds a fence or ends in a backtick: the prose
      may carry inline code spans, no fence opens inside it, and the code's
      closing fence is the first fence after it. */
  predicate WellFormed(seg: Segment) {
    && MatchBody(seg.prose)
    && MatchBody(seg.code)
  }

  /** A code block between its fences. */
  function Fenced(code: string): string {
    "```" + code + "```"
  }

  /** A reply: each segment's prose and fenced code in order, then the
      closing prose `trailer`. */
  function Render(doc: seq<Segment>, trailer: string): string
    decreases |doc|
  {
    if |doc| == 0 then trailer else doc[0].prose + (Fenced(doc[0].code) + Render(doc[1..], trailer))
  }

  function Codes(doc: seq<Segment>): (r: seq<string>)
    ensures |r| == |doc|
    ensures forall i | 0 <= i < |doc| :: r[i] == doc[i].code
  {
    seq(|doc|, i requires 0 <= i < |doc| => doc[i].code)
  }

  /** The scanner walks over prose that holds no fence and does not end in
      a backtick without finding anything. */
  lemma {:induction false} SkipProse(p: string, t: string)
    requires MatchBody(p)
    ensures Blocks(p + t) == Blocks(t)
    decreases |p|
  {
    if |p| > 0 {
      MatchBodyStep(p, t);
      if |p + t| >= 3 {
        SkipProse(p[1..], t);
      }
    } else {
      assert p + t == t;
    }
  }

  /** An opening fence followed by well-formed code is closed right after the code. */
  lemma OneBlock(code: string, t: string)
    requires MatchBody(code)
    ensures Blocks(Fenced(code) + t) == [code] + Blocks(t)
  {
    var s := Fenced(code) + t;
    var rest := s[3..];
    assert rest == code + "```" + t;
    assert FenceAt(s, 0);
    assert FenceAt(rest, |code|);
    assert forall j | 0 <= j < |code| :: !FenceAt(rest, j) by {
      forall j | 0 <= j < |code|
        ensures !FenceAt(rest, j)
      {
        if j + 3 <= |code| {
          assert !FenceAt(code, j);
          assert rest[j] == code[j] && rest[j + 1] == code[j + 1] && rest[j + 2] == code[j + 2];
        } else {
          assert code[|code| - 1] != '`';
          assert rest[|code| - 1] == code[|code| - 1];
        }
      }
    }
    assert FirstFence(rest) == Some(|code|);
    assert s[3..3 + |code|] == code;
    assert s[3 + |code| + 3..] == t;
  }

  /** Round trip: the scanner recovers every code block of a rendered
      document, in order, and nothing else. */
  lemma {:induction false} BlocksOfRender(doc: seq<Segment>, trailer: string)
    requires forall i | 0 <= i < |doc| :: WellFormed(doc[i])
    requires FenceFree(trailer)
    ensures Blocks(Render(doc, trailer)) == Codes(doc)
    decreases |doc|
  {
    if |doc| > 0 {
      var seg := doc[0];
      var tail := Render(doc[1..], trailer);
      SkipProse(seg.prose, Fenced(seg.code) + tail);
      OneBlock(seg.code, tail);
      BlocksOfRender(doc[1..], trailer);
      assert Codes(doc) == [seg.code] + Codes(doc[1..]);
    } else {
      BlocksEmptyIffNoFencedBlock(trailer);
    }
  }

  /** The copy button of a reply made of prose and code blocks copies the
      code blocks, fences removed, separated by a blank line; a reply of
      prose alone is copied whole. */
  lemma CopyTextOfRender(doc: seq<Segment>, trailer: string)
    requires forall i | 0 <= i < |doc| :: WellFormed(doc[i])
    requires FenceFree(trailer)
    ensures |doc| > 0 ==> CopyText(Render(doc, trailer)) == Join(Codes(doc), "\n\n")
    ensures |doc| == 0 ==> CopyText(Render(doc, trailer)) == trailer
  {
    BlocksOfRender(doc, trailer);
    BlocksEmptyIffNoFencedBlock(Render(doc, trailer));
  }
}
