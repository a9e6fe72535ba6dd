/** The JavaScript string operations the frontend chains together to derive
    make keys: `trim`, `toLowerCase` (on ASCII letters), `replace(/\s+/g, r)`
    and removal of the characters outside a class.  The functions carry no
    more contract than their own definitions need; what they guarantee is
    stated by the lemma beside each. */
module JsString {

  /** A character matched by `\s`, which is also the set `trim` strips. */
  predicate IsSpace(c: char) {
    ('\t' <= c <= '\r') || c == ' ' || c == '\U{00A0}' || c == '\U{1680}'
    || ('\U{2000}' <= c <= '\U{200A}') || c == '\U{2028}' || c == '\U{2029}'
    || c == '\U{202F}' || c == '\U{205F}' || c == '\U{3000}' || c == '\U{FEFF}'
  }

  predicate NoSpace(s: string) {
    forall i :: 0 <= i < |s| ==> !IsSpace(s[i])
  }

  /** Every character of `s` is a space (the string is blank once trimmed). */
  predicate AllSpace(s: string) {
    forall i :: 0 <= i < |s| ==> IsSpace(s[i])
  }

  function LowerChar(c: char): char {
    if 'A' <= c <= 'Z' then (c as int + 32) as char else c
  }

  /** `toLowerCase`, on the ASCII letters. */
  function Lower(s: string): string {
    seq(|s|, i requires 0 <= i < |s| => LowerChar(s[i]))
  }

  /** Lowering maps each character on its own: upper-case ASCII letters to
      lower case, everything else (spaces included) to itself. */
  lemma LowerSpec(s: string)
    ensures |Lower(s)| == |s|
    ensures forall i :: 0 <= i < |s| ==> ('A' <= s[i] <= 'Z' ==> 'a' <= Lower(s)[i] <= 'z')
    ensures forall i :: 0 <= i < |s| ==> (!('A' <= s[i] <= 'Z') ==> Lower(s)[i] == s[i])
    ensures forall i :: 0 <= i < |s| ==> (IsSpace(Lower(s)[i]) <==> IsSpace(s[i]))
  {
  }

  /** Leading spaces removed. */
  function TrimStart(s: string): (r: string)
    ensures |r| <= |s|
    decreases |s|
  {
    if |s| > 0 && IsSpace(s[0]) then TrimStart(s[1..]) else s
  }

  /** `TrimStart` drops a prefix made of spaces and stops at a non-space. */
  lemma {:induction false} TrimStartSpec(s: string)
    ensures TrimStart(s) == s[|s| - |TrimStart(s)|..]
    ensures |TrimStart(s)| > 0 ==> !IsSpace(TrimStart(s)[0])
    ensures AllSpace(s[..|s| - |TrimStart(s)|])
    decreases |s|
  {
    if |s| > 0 && IsSpace(s[0]) {
      var r := TrimStart(s[1..]);
      TrimStartSpec(s[1..]);
      assert s[1..][|s[1..]| - |r|..] == s[|s| - |r|..];
      assert s[1..][..|s[1..]| - |r|] == s[1..|s| - |r|];
    }
  }

  /** Trailing spaces removed. */
  function TrimEnd(s: string): (r: string)
    ensures |r| <= |s|
    decreases |s|
  {
    if |s| > 0 && IsSpace(s[|s| - 1]) then TrimEnd(s[..|s| - 1]) else s
  }

  /** `TrimEnd` drops a suffix made of spaces and stops at a non-space. */
  lemma {:induction false} TrimEndSpec(s: string)
    ensures TrimEnd(s) == s[..|TrimEnd(s)|]
    ensures |TrimEnd(s)| > 0 ==> !IsSpace(TrimEnd(s)[|TrimEnd(s)| - 1])
    ensures AllSpace(s[|TrimEnd(s)|..])
    decreases |s|
  {
    if |s| > 0 && IsSpace(s[|s| - 1]) {
      var r := TrimEnd(s[..|s| - 1]);
      TrimEndSpec(s[..|s| - 1]);
      assert s[..|s| - 1][..|r|] == s[..|r|];
      assert forall i :: |r| <= i < |s| - 1 ==> s[..|s| - 1][|r|..][i - |r|] == s[i];
    }
  }

  /** `trim` */
  function Trim(s: string): (r: string)
    ensures |r| <= |s|
  {
    TrimEnd(TrimStart(s))
  }

  /** `trim` leaves neither a leading nor a trailing space, and gives the
      empty string exactly when every character is a space. */
  lemma TrimSpec(s: string)
    ensures |Trim(s)| > 0 ==> !IsSpace(Trim(s)[0]) && !IsSpace(Trim(s)[|Trim(s)| - 1])
    ensures Trim(s) == "" <==> AllSpace(s)
  {
    var t := TrimStart(s);
    var r := TrimEnd(t);
    TrimStartSpec(s);
    TrimEndSpec(t);
    if r == "" {
      assert t[|r|..] == t;
      assert t == "";
      assert s[..|s| - |t|] == s;
    } else {
      assert t[0] == r[0];
      assert t[0] == s[|s| - |t|];
    }
  }

  /** A string without spaces is its own trim. */
  lemma TrimNoSpace(s: string)
    requires NoSpace(s)
    ensures Trim(s) == s
  {
    if |s| > 0 {
      assert !IsSpace(s[0]) && !IsSpace(s[|s| - 1]);
    }
  }

  /** `s.replace(/\s+/g, rep)`: each maximal run of spaces becomes `rep`. */
  function ReplaceSpaceRuns(s: string, rep: char): (r: string)
    ensures |r| <= |s|
    decreases |s|
  {
    if |s| == 0 then ""
    else if IsSpace(s[0]) then [rep] + ReplaceSpaceRuns(TrimStart(s[1..]), rep)
    else [s[0]] + ReplaceSpaceRuns(s[1..], rep)
  }

  /** The replacement leaves no space behind when `rep` is not one, and
      every character it gives is `rep` or one of the input's. */
  lemma {:induction false} ReplaceSpaceRunsSpec(s: string, rep: char)
    ensures !IsSpace(rep) ==> NoSpace(ReplaceSpaceRuns(s, rep))
    ensures forall c :: c in ReplaceSpaceRuns(s, rep) ==> c == rep || c in s
    decreases |s|
  {
    if |s| > 0 {
      if IsSpace(s[0]) {
        var t := TrimStart(s[1..]);
        TrimStartSpec(s[1..]);
        ReplaceSpaceRunsSpec(t, rep);
        assert forall c :: c in t ==> c in s by {
          forall c | c in t ensures c in s {
            var i :| 0 <= i < |t| && t[i] == c;
            assert s[|s| - |t| + i] == c;
          }
        }
      } else {
        ReplaceSpaceRunsSpec(s[1..], rep);
      }
    }
  }

  /** A string without spaces is left as it is by the replacement. */
  lemma {:induction false} ReplaceSpaceRunsNoSpace(s: string, rep: char)
    requires NoSpace(s)
    ensures ReplaceSpaceRuns(s, rep) == s
    decreases |s|
  {
    if |s| > 0 {
      assert !IsSpace(s[0]);
      ReplaceSpaceRunsNoSpace(s[1..], rep);
    }
  }

  /** One space, or a run of them, between two words gives a single `rep`. */
  lemma ReplaceSpaceRunsBetween(a: string, spaces: string, b: string, rep: char)
    requires NoSpace(a) && NoSpace(b) && |spaces| > 0 && AllSpace(spaces)
    requires |b| > 0
    ensures ReplaceSpaceRuns(a + spaces + b, rep) == a + [rep] + b
  {
    PrefixNoSpace(a, spaces + b, rep);
    assert a + spaces + b == a + (spaces + b);
    TrimStartAll(spaces, b);
    assert (spaces + b)[1..] == spaces[1..] + b;
    ReplaceSpaceRunsNoSpace(b, rep);
  }

  /** Trimming a run of spaces in front of a word leaves the word. */
  lemma {:induction false} TrimStartAll(spaces: string, b: string)
    requires AllSpace(spaces) && (|b| == 0 || !IsSpace(b[0]))
    ensures TrimStart(spaces + b) == b
    decreases |spaces|
  {
    if |spaces| == 0 {
      assert spaces + b == b;
    } else {
      assert (spaces + b)[1..] == spaces[1..] + b;
      TrimStartAll(spaces[1..], b);
    }
  }

  /** A leading word without spaces passes through the replacement unchanged. */
  lemma {:induction false} PrefixNoSpace(a: string, rest: string, rep: char)
    requires NoSpace(a)
    ensures ReplaceSpaceRuns(a + rest, rep) == a + ReplaceSpaceRuns(rest, rep)
    decreases |a|
  {
    if |a| == 0 {
      assert a + rest == rest;
    } else {
      assert !IsSpace(a[0]);
      assert (a + rest)[1..] == a[1..] + rest;
      PrefixNoSpace(a[1..], rest, rep);
    }
  }

  /** `[a-z0-9-]` */
  predicate IsKeyChar(c: char) {
    ('a' <= c <= 'z') || ('0' <= c <= '9') || c == '-'
  }

  /** `s.replace(/[^a-z0-9-]/g, '')` */
  function KeepKeyChars(s: string): (r: string)
    ensures |r| <= |s|
    decreases |s|
  {
    if |s| == 0 then ""
    else (if IsKeyChar(s[0]) then [s[0]] else []) + KeepKeyChars(s[1..])
  }

  /** What the removal keeps is all in [a-z0-9-], and a string already in
      that class is kept whole. */
  lemma {:induction false} KeepKeyCharsSpec(s: string)
    ensures forall i :: 0 <= i < |KeepKeyChars(s)| ==> IsKeyChar(KeepKeyChars(s)[i])
    ensures (forall i :: 0 <= i < |s| ==> IsKeyChar(s[i])) ==> KeepKeyChars(s) == s
    decreases |s|
  {
    if |s| > 0 {
      KeepKeyCharsSpec(s[1..]);
      if forall i :: 0 <= i < |s| ==> IsKeyChar(s[i]) {
        assert forall i :: 0 <= i < |s[1..]| ==> IsKeyChar(s[1..][i]) by {
          forall i | 0 <= i < |s[1..]| ensures IsKeyChar(s[1..][i]) {
            assert s[1..][i] == s[i + 1];
          }
        }
        assert [s[0]] + s[1..] == s;
      }
    }
  }

  /** `\w`, `\s` or `-`: the characters `/[^\w\s-]/g` leaves in place. */
  predicate IsWordSpaceOrDash(c: char) {
    ('a' <= c <= 'z') || ('A' <= c <= 'Z') || ('0' <= c <= '9') || c == '_' || IsSpace(c) || c == '-'
  }

  /** `s.replace(/[^\w\s-]/g, '')` */
  function KeepWordSpaceDash(s: string): (r: string)
    ensures |r| <= |s|
    decreases |s|
  {
    if |s| == 0 then ""
    else (if IsWordSpaceOrDash(s[0]) then [s[0]] else []) + KeepWordSpaceDash(s[1..])
  }

  /** The removal keeps only word characters, spaces and dashes, all taken
      from the input. */
  lemma {:induction false} KeepWordSpaceDashSpec(s: string)
    ensures forall c :: c in KeepWordSpaceDash(s) ==> IsWordSpaceOrDash(c) && c in s
    decreases |s|
  {
    if |s| > 0 {
      KeepWordSpaceDashSpec(s[1..]);
    }
  }

  /** A string of word characters, spaces and dashes is kept whole. */
  lemma {:induction false} KeepWordSpaceDashAll(s: string)
    requires forall i :: 0 <= i < |s| ==> IsWordSpaceOrDash(s[i])
    ensures KeepWordSpaceDash(s) == s
    decreases |s|
  {
    if |s| > 0 {
      assert forall i :: 0 <= i < |s[1..]| ==> IsWordSpaceOrDash(s[1..][i]) by {
        forall i | 0 <= i < |s[1..]| ensures IsWordSpaceOrDash(s[1..][i]) {
          assert s[1..][i] == s[i + 1];
        }
      }
      KeepWordSpaceDashAll(s[1..]);
      assert [s[0]] + s[1..] == s;
    }
  }
}
