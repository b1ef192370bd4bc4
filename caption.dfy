/**
 * The caption generator (index.js:32-46): a foreign text service whose reply
 * is cleaned of a Markdown code fence, trimmed and parsed as JSON, with a
 * fixed fallback whenever any of that fails.
 */
module Caption {

  import opened Wrappers

  datatype CaptionVibe = CaptionVibe(caption: string, vibe: string)

  /** What the generator is asked about: title, tags and the resolved image URL. */
  datatype Request = Request(title: string, tags: seq<string>, imageUrl: string)

  /** The value returned whenever the model call, its reply or the parse fails. */
  const Fallback := CaptionVibe("YOLO to the moon!", "Neon Chaos Mode")

  /** The two alternatives of the pattern /```json\n|\n```/g. */
  const OpenFence := "```json\n"
  const CloseFence := "\n```"

  /** s holds an occurrence of one of the two fence markers at position i. */
  predicate FenceAt(s: string, i: nat)
    requires i <= |s|
  {
    OpenFence <= s[i..] || CloseFence <= s[i..]
  }

  predicate NoFence(s: string)
  {
    forall i :: 0 <= i <= |s| ==> !FenceAt(s, i)
  }

  predicate NoBacktick(s: string)
  {
    forall i :: 0 <= i < |s| ==> s[i] != '`'
  }

  /**
   * `text.replace(/```json\n|\n```/g, '')`: a left-to-right scan that deletes
   * every match and resumes after it.
   */
  function StripFences(s: string): (r: string)
    ensures |r| <= |s|
    ensures NoFence(s) ==> r == s
    decreases |s|
  {
    if |s| == 0 then []
    else if OpenFence <= s then assert s[0..] == s && FenceAt(s, 0); StripFences(s[|OpenFence|..])
    else if CloseFence <= s then assert s[0..] == s && FenceAt(s, 0); StripFences(s[|CloseFence|..])
    else
      assert NoFence(s) ==> NoFence(s[1..]) by {
        if NoFence(s) {
          forall i | 0 <= i <= |s[1..]| ensures !FenceAt(s[1..], i) {
            assert s[1..][i..] == s[i + 1..];
            assert !FenceAt(s, i + 1);
          }
        }
      }
      [s[0]] + StripFences(s[1..])
  }

  /** The characters String.prototype.trim removes: ECMAScript WhiteSpace and LineTerminator. */
  predicate IsWhiteSpace(c: char)
  {
    c in {'\t', '\n', '\U{000B}', '\U{000C}', '\r', ' ', '\U{00A0}', '\U{1680}',
          '\U{2000}', '\U{2001}', '\U{2002}', '\U{2003}', '\U{2004}', '\U{2005}',
          '\U{2006}', '\U{2007}', '\U{2008}', '\U{2009}', '\U{200A}',
          '\U{2028}', '\U{2029}', '\U{202F}', '\U{205F}', '\U{3000}', '\U{FEFF}'}
  }

  /** s without its leading white space. */
  function TrimStart(s: string): (r: string)
    ensures |r| <= |s| && r == s[|s| - |r|..]
    ensures forall k :: 0 <= k < |s| - |r| ==> IsWhiteSpace(s[k])
    ensures r == [] || !IsWhiteSpace(r[0])
  {
    if s != [] && IsWhiteSpace(s[0]) then TrimStart(s[1..]) else s
  }

  /** s without its trailing white space. */
  function TrimEnd(s: string): (r: string)
    ensures |r| <= |s| && r == s[..|r|]
    ensures forall k :: |r| <= k < |s| ==> IsWhiteSpace(s[k])
    ensures r == [] || !IsWhiteSpace(r[|r| - 1])
  {
    if s != [] && IsWhiteSpace(s[|s| - 1]) then TrimEnd(s[..|s| - 1]) else s
  }

  /** `s.trim()`: the infix of s between its leading and its trailing white space. */
  function Trim(s: string): (r: string)
    ensures exists i, j :: 0 <= i <= j <= |s| && r == s[i..j]
                           && (forall k :: 0 <= k < i ==> IsWhiteSpace(s[k]))
                           && (forall k :: j <= k < |s| ==> IsWhiteSpace(s[k]))
    ensures r == [] || (!IsWhiteSpace(r[0]) && !IsWhiteSpace(r[|r| - 1]))
  {
    var t := TrimStart(s);
    var r := TrimEnd(t);
    var i := |s| - |t|;
    assert r == s[i..i + |r|];
    r
  }

  /** The text handed to JSON.parse. */
  function Clean(text: string): (cleaned: string)
    ensures |cleaned| <= |text|
    ensures NoFence(text) ==> cleaned == Trim(text)
    ensures cleaned != [] ==> !IsWhiteSpace(cleaned[0]) && !IsWhiteSpace(cleaned[|cleaned| - 1])
  {
    Trim(StripFences(text))
  }

  /**
   * generateAICaptionAndVibe. `reply` is the model's response text, None when
   * the model call or reading its response throws; `parse` is JSON.parse
   * taken to a caption and vibe, None when it throws.
   */
  function Generate(reply: Option<string>, parse: string -> Option<CaptionVibe>): (r: CaptionVibe)
    ensures r == Fallback || (reply.Some? && parse(Clean(reply.value)) == Some(r))
    ensures reply.None? ==> r == Fallback
    ensures reply.Some? && parse(Clean(reply.value)).None? ==> r == Fallback
    ensures reply.Some? && parse(Clean(reply.value)).Some? ==> r == parse(Clean(reply.value)).value
  {
    match reply
    case None => Fallback
    case Some(text) =>
      match parse(Clean(text))
      case None => Fallback
      case Some(cv) => cv
  }

  // ---------------------------------------------------------------------
  // Properties of the fence removal
  // ---------------------------------------------------------------------

  /** A leading opening fence is removed and the rest is scanned as if alone. */
  lemma StripLeadingOpenFence(t: string)
    ensures StripFences(OpenFence + t) == StripFences(t)
  {
    var s := OpenFence + t;
    assert s[..|OpenFence|] == OpenFence;
    assert s[|OpenFence|..] == t;
  }

  /** Where no marker starts at c, the scan keeps c and moves on to t. */
  lemma StripKeepsFirst(c: char, t: string)
    requires !(OpenFence <= [c] + t) && !(CloseFence <= [c] + t)
    ensures StripFences([c] + t) == [c] + StripFences(t)
  {
    var s := [c] + t;
    assert s[0..] == s && s[1..] == t;
  }

  /** A backtick-free body followed by the closing fence loses exactly the fence. */
  lemma {:induction false} StripClosingFence(body: string)
    requires NoBacktick(body)
    ensures StripFences(body + CloseFence) == body
  {
    if body == [] {
      assert body + CloseFence == CloseFence;
      assert CloseFence[|CloseFence|..] == [];
    } else {
      var rest := body[1..];
      var t := rest + CloseFence;
      assert body + CloseFence == [body[0]] + t;
      assert t[0] == if rest == [] then '\n' else body[1];
      assert !(OpenFence <= [body[0]] + t) && !(CloseFence <= [body[0]] + t) by {
        assert OpenFence[0] == '`' && CloseFence[1] == '`';
        assert ([body[0]] + t)[0] == body[0] && ([body[0]] + t)[1] == t[0];
      }
      StripKeepsFirst(body[0], t);
      assert NoBacktick(rest) by {
        forall i | 0 <= i < |rest| ensures rest[i] != '`' { assert rest[i] == body[i + 1]; }
      }
      StripClosingFence(rest);
      assert [body[0]] + rest == body;
    }
  }

  /** A reply wrapped as "```json\n" + body + "\n```" is cleaned down to the trimmed body. */
  lemma FencedReplyIsUnwrapped(body: string)
    requires NoBacktick(body)
    ensures StripFences(OpenFence + body + CloseFence) == body
    ensures Clean(OpenFence + body + CloseFence) == Trim(body)
  {
    assert OpenFence + body + CloseFence == OpenFence + (body + CloseFence);
    StripLeadingOpenFence(body + CloseFence);
    StripClosingFence(body);
  }

  /** Hence a fenced reply yields what the parser makes of the trimmed body, or the fallback. */
  lemma FencedReplyParsesBody(body: string, parse: string -> Option<CaptionVibe>)
    requires NoBacktick(body)
    ensures Generate(Some(OpenFence + body + CloseFence), parse)
            == (if parse(Trim(body)).Some? then parse(Trim(body)).value else Fallback)
  {
    FencedReplyIsUnwrapped(body);
  }

  /**
   * The closing marker needs its newline: a payload closed by a bare "```"
   * keeps those backticks, so JSON.parse sees "{}```" and the caller gets
   * whatever the parser makes of it (the fallback, when it throws).
   */
  lemma ClosingFenceWithoutNewlineIsKept()
    ensures StripFences("```json\n{}```") == "{}```"
  {
    var s := "```json\n{}```";
    assert s[..|OpenFence|] == OpenFence;
    var t := s[|OpenFence|..];
    assert t == "{}```";
    assert NoFence(t) by {
      forall i | 0 <= i <= |t| ensures !FenceAt(t, i) {
        assert |t[i..]| < |OpenFence|;
        assert !(CloseFence <= t[i..]) by {
          if i < |t| { assert t[i..][0] == t[i] != '\n'; }
        }
      }
    }
  }
}
