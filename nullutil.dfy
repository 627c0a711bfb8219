/**
 * The SQL null helpers of internal/utils/nullutil/null.go: a string that is blank once
 * trimmed becomes SQL NULL, and a JSON document becomes NULL only when it is absent.
 */
module NullUtil {
  import opened Wrappers
  import opened Bytes

  /** sql.NullString; the zero value is {"", false}. */
  datatype NullString = NullString(str: string, valid: bool)

  /** pqtype.NullRawMessage; `rawMessage` None is a nil json.RawMessage. */
  datatype NullRawMessage = NullRawMessage(rawMessage: Option<Bytes>, valid: bool)

  /** unicode.IsSpace: the Latin-1 spaces and the other runes of Unicode's White_Space property. */
  predicate IsSpace(c: char) {
    || c == '\t' || c == '\n' || c == '\U{000B}' || c == '\U{000C}' || c == '\r' || c == ' '
    || c == '\U{0085}' || c == '\U{00A0}' || c == '\U{1680}'
    || ('\U{2000}' <= c <= '\U{200A}')
    || c == '\U{2028}' || c == '\U{2029}' || c == '\U{202F}' || c == '\U{205F}' || c == '\U{3000}'
  }

  /** Every character of `s` is a space. */
  predicate AllSpace(s: string) {
    forall i :: 0 <= i < |s| ==> IsSpace(s[i])
  }

  /** Neither end of `s` is a space. */
  predicate Trimmed(s: string) {
    s == [] || (!IsSpace(s[0]) && !IsSpace(s[|s| - 1]))
  }

  /** `s` without its leading spaces. */
  function TrimLeft(s: string): (r: string)
    ensures |r| <= |s| && r == s[|s| - |r|..]
    ensures AllSpace(s[..|s| - |r|])
    ensures r == [] || !IsSpace(r[0])
  {
    if s != [] && IsSpace(s[0]) then
      var r := TrimLeft(s[1..]);
      assert s[..|s| - |r|] == [s[0]] + s[1..][..|s| - 1 - |r|];
      r
    else s
  }

  /** `s` without its trailing spaces. */
  function TrimRight(s: string): (r: string)
    ensures |r| <= |s| && r == s[..|r|]
    ensures AllSpace(s[|r|..])
    ensures r == [] || !IsSpace(r[|r| - 1])
  {
    if s != [] && IsSpace(s[|s| - 1]) then
      var r := TrimRight(s[..|s| - 1]);
      assert s[|r|..] == s[..|s| - 1][|r|..] + [s[|s| - 1]];
      r
    else s
  }

  /** strings.TrimSpace. */
  function TrimSpace(s: string): string {
    TrimRight(TrimLeft(s))
  }

  /** How many leading spaces TrimSpace drops. */
  function Lead(s: string): nat {
    |s| - |TrimLeft(s)|
  }

  /**
   * TrimSpace removes exactly a run of spaces at each end: the result is a slice of the
   * input with only spaces before and after it, and it starts and ends with a non-space.
   */
  lemma TrimSpaceSpec(s: string)
    ensures Lead(s) + |TrimSpace(s)| <= |s|
    ensures TrimSpace(s) == s[Lead(s)..Lead(s) + |TrimSpace(s)|]
    ensures AllSpace(s[..Lead(s)]) && AllSpace(s[Lead(s) + |TrimSpace(s)|..])
    ensures Trimmed(TrimSpace(s))
  {
    var l := TrimLeft(s);
    var t := TrimRight(l);
    var lead := |s| - |l|;
    assert t == s[lead..lead + |t|];
    assert s[lead + |t|..] == l[|t|..];
    if t != [] {
      assert t[0] == l[0];
    }
  }

  /** Trimming a trimmed string changes nothing. */
  lemma TrimSpaceTrimmed(s: string)
    requires Trimmed(s)
    ensures TrimSpace(s) == s
  {
  }

  /** TrimSpace is idempotent. */
  lemma TrimSpaceIdempotent(s: string)
    ensures TrimSpace(TrimSpace(s)) == TrimSpace(s)
  {
    TrimSpaceSpec(s);
    TrimSpaceTrimmed(TrimSpace(s));
  }

  /** A string is blank, trimming to nothing, exactly when all its characters are spaces. */
  lemma {:induction false} BlankIffAllSpace(s: string)
    ensures TrimSpace(s) == "" <==> AllSpace(s)
  {
    TrimSpaceSpec(s);
  }

  /** NewNullString: NULL for a blank string, otherwise the trimmed string. */
  function NewNullString(s: string): (r: NullString)
    ensures !r.valid <==> AllSpace(s)
    ensures !r.valid ==> r == NullString("", false)
    ensures r.valid ==> r.str == TrimSpace(s) && Trimmed(r.str) && r.str != ""
  {
    BlankIffAllSpace(s);
    TrimSpaceSpec(s);
    var t := TrimSpace(s);
    if t == "" then NullString("", false) else NullString(t, true)
  }

  /** Feeding a result's string back in gives the same result. */
  lemma NewNullStringIdempotent(s: string)
    ensures NewNullString(NewNullString(s).str) == NewNullString(s)
  {
    var r := NewNullString(s);
    if r.valid {
      TrimSpaceTrimmed(r.str);
    }
  }

  /** strings whose ends carry spaces store the same value as their core. */
  lemma SpacesAroundIgnored(core: string, lead: string, trail: string)
    requires AllSpace(lead) && AllSpace(trail) && Trimmed(core)
    ensures NewNullString(lead + core + trail) == NewNullString(core)
  {
    var s := lead + core + trail;
    if core == [] {
      assert AllSpace(s) by {
        assert forall i :: 0 <= i < |s| ==> s[i] == if i < |lead| then lead[i] else trail[i - |lead|];
      }
      BlankIffAllSpace(s);
      BlankIffAllSpace(core);
    } else {
      assert s == lead + (core + trail);
      TrimLeftOver(lead, core + trail);
      TrimRightOver(core, trail);
      TrimSpaceTrimmed(core);
    }
  }

  lemma {:induction false} TrimLeftOver(lead: string, rest: string)
    requires AllSpace(lead) && (rest == [] || !IsSpace(rest[0]))
    ensures TrimLeft(lead + rest) == rest
    decreases |lead|
  {
    if lead == [] {
      assert lead + rest == rest;
    } else {
      assert (lead + rest)[1..] == lead[1..] + rest;
      assert AllSpace(lead[1..]) by {
        assert forall i :: 0 <= i < |lead| - 1 ==> lead[1..][i] == lead[i + 1];
      }
      TrimLeftOver(lead[1..], rest);
    }
  }

  lemma {:induction false} TrimRightOver(rest: string, trail: string)
    requires AllSpace(trail) && (rest == [] || !IsSpace(rest[|rest| - 1]))
    ensures TrimRight(rest + trail) == rest
    decreases |trail|
  {
    if trail == [] {
      assert rest + trail == rest;
    } else {
      var front := trail[..|trail| - 1];
      assert (rest + trail)[..|rest + trail| - 1] == rest + front;
      assert AllSpace(front) by {
        assert forall i :: 0 <= i < |front| ==> front[i] == trail[i];
      }
      TrimRightOver(rest, front);
    }
  }

  /** NewNullRawMessage: NULL only for a nil message; any other, even empty, is kept as it is. */
  function NewNullRawMessage(m: Option<Bytes>): (r: NullRawMessage)
    ensures r.valid <==> m.Some?
    ensures r.rawMessage == m
  {
    if m.None? then NullRawMessage(None, false) else NullRawMessage(m, true)
  }

  /** An empty but non-nil message is stored as an empty document, not as NULL. */
  lemma EmptyMessageIsValid()
    ensures NewNullRawMessage(Some([])) == NullRawMessage(Some([]), true)
    ensures NewNullRawMessage(None) == NullRawMessage(None, false)
  {
  }

  /** Padding around a value is dropped. */
  lemma PaddedExample()
    ensures NewNullString("  card \n") == NullString("card", true)
  {
    var lead, core, trail := "  ", "card", " \n";
    assert lead + core + trail == "  card \n";
    SpacesAroundIgnored(core, lead, trail);
    TrimSpaceTrimmed(core);
  }

  /** Tabs and ideographic spaces are blank too. */
  lemma BlankExample()
    ensures NewNullString(" \t\U{3000}") == NullString("", false)
    ensures NewNullString("") == NullString("", false)
  {
    var s := " \t\U{3000}";
    assert IsSpace(s[0]) && IsSpace(s[1]) && IsSpace(s[2]);
  }
}
