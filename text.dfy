/**
 * String helpers the chat screen relies on: JavaScript's `String.prototype.trim`
 * (ECMAScript 2024, section 22.1.3.32, removing WhiteSpace and LineTerminator code
 * points) and the joining of a speech-recognition result list into one transcript.
 */
module Text {
  import opened Wrappers

  /** WhiteSpace (section 12.2) and LineTerminator (section 12.3) code points of ECMAScript. */
  predicate IsTrimmable(c: char) {
    || c == '\t' || c == '\n' || c == '\U{000B}' || c == '\U{000C}' || c == '\r'
    || c == ' ' || c == '\U{00A0}' || c == '\U{1680}'
    || ('\U{2000}' <= c <= '\U{200A}')
    || c == '\U{2028}' || c == '\U{2029}' || c == '\U{202F}' || c == '\U{205F}'
    || c == '\U{3000}' || c == '\U{FEFF}'
  }

  /** A string that `trim` reduces to the empty string: nothing but white space. */
  predicate IsBlank(s: string) {
    forall i :: 0 <= i < |s| ==> IsTrimmable(s[i])
  }

  /** Drops the leading white space: the result is the suffix after the longest blank prefix. */
  function TrimStart(s: string): (r: string)
    ensures |r| <= |s| && r == s[|s| - |r|..]
    ensures forall i :: 0 <= i < |s| - |r| ==> IsTrimmable(s[i])
    ensures r != [] ==> !IsTrimmable(r[0])
  {
    if s != [] && IsTrimmable(s[0]) then TrimStart(s[1..]) else s
  }

  /** Drops the trailing white space: the result is the prefix before the longest blank suffix. */
  function TrimEnd(s: string): (r: string)
    ensures |r| <= |s| && r == s[..|r|]
    ensures forall i :: |r| <= i < |s| ==> IsTrimmable(s[i])
    ensures r != [] ==> !IsTrimmable(r[|r| - 1])
  {
    if s != [] && IsTrimmable(s[|s| - 1]) then TrimEnd(s[..|s| - 1]) else s
  }

  /** JavaScript's `s.trim()`. */
  function Trim(s: string): (r: string)
    ensures |r| <= |TrimStart(s)| <= |s|
    ensures r == s[|s| - |TrimStart(s)|..|s| - |TrimStart(s)| + |r|]
    ensures r != [] ==> !IsTrimmable(r[0]) && !IsTrimmable(r[|r| - 1])
  {
    TrimEnd(TrimStart(s))
  }

  /**
   * What `trim` removes is white space and nothing else: every code point before
   * the slice it returns, and every one after it, is trimmable.
   */
  lemma TrimRemovesOnlyWhiteSpace(s: string)
    ensures var start := |s| - |TrimStart(s)|;
      && (forall i :: 0 <= i < start ==> IsTrimmable(s[i]))
      && (forall i :: start + |Trim(s)| <= i < |s| ==> IsTrimmable(s[i]))
  {
    var t := TrimStart(s);
    var r := TrimEnd(t);
    var start := |s| - |t|;
    assert Trim(s) == r;
    forall i | start + |r| <= i < |s| ensures IsTrimmable(s[i]) {
      var j := i - start;
      assert |r| <= j < |t| && IsTrimmable(t[j]);
      assert t[j] == s[i];
    }
  }

  /** `trim` yields the empty string exactly for blank input. */
  lemma TrimEmptyIffBlank(s: string)
    ensures Trim(s) == [] <==> IsBlank(s)
  {
  }

  /** A string that neither starts nor ends with white space is left alone by `trim`. */
  lemma TrimKeepsTrimmed(s: string)
    requires s != [] ==> !IsTrimmable(s[0]) && !IsTrimmable(s[|s| - 1])
    ensures Trim(s) == s
  {
    assert TrimStart(s) == s;
  }

  /** Trimming twice is trimming once. */
  lemma TrimIdempotent(s: string)
    ensures Trim(Trim(s)) == Trim(s)
  {
    TrimKeepsTrimmed(Trim(s));
  }

  /**
   * The transcript of a recognition event: the first alternative of every result,
   * concatenated in order. When some result has no alternative, reading its first
   * alternative throws, and there is no transcript.
   */
  function Transcript(results: seq<seq<string>>): (r: Option<string>)
    ensures r.Some? <==> forall i :: 0 <= i < |results| ==> results[i] != []
  {
    if results == [] then Some("")
    else if results[0] == [] then None
    else match Transcript(results[1..])
      case None => None
      case Some(rest) => Some(results[0][0] + rest)
  }

  /** The transcript of two result lists one after the other is the two transcripts joined. */
  lemma {:induction false} TranscriptAppend(a: seq<seq<string>>, b: seq<seq<string>>)
    ensures Transcript(a + b) ==
      (if Transcript(a).Some? && Transcript(b).Some?
       then Some(Transcript(a).value + Transcript(b).value)
       else None)
  {
    if a == [] {
      assert a + b == b;
      if Transcript(b).Some? {
        assert "" + Transcript(b).value == Transcript(b).value;
      }
    } else {
      assert (a + b)[0] == a[0];
      assert (a + b)[1..] == a[1..] + b;
      TranscriptAppend(a[1..], b);
      if a[0] != [] && Transcript(a[1..]).Some? && Transcript(b).Some? {
        var x, y, z := a[0][0], Transcript(a[1..]).value, Transcript(b).value;
        assert x + (y + z) == (x + y) + z;
      }
    }
  }

  /**
   * When every result carries an alternative, the transcript is the plain
   * concatenation of the first alternative of each result (`result[0]`).
   */
  lemma {:induction false} TranscriptOfFirstAlternatives(rs: seq<seq<string>>)
    requires forall i :: 0 <= i < |rs| ==> rs[i] != []
    ensures Transcript(rs) == Some(Concat(seq(|rs|, i requires 0 <= i < |rs| && rs[i] != [] => rs[i][0])))
  {
    var firsts := seq(|rs|, i requires 0 <= i < |rs| && rs[i] != [] => rs[i][0]);
    if rs != [] {
      assert firsts[1..] == seq(|rs[1..]|, i requires 0 <= i < |rs[1..]| && rs[1..][i] != [] => rs[1..][i][0]);
      TranscriptOfFirstAlternatives(rs[1..]);
    }
  }

  /** A plain concatenation of strings, the reference for `Transcript`. */
  function Concat(ts: seq<string>): string {
    if ts == [] then "" else ts[0] + Concat(ts[1..])
  }
}
