/**
 * The configuration parsers' string helpers (DaaS/PoCPhase3/tm10/parserLib.c):
 * the line copy parser_dupstr, the strtok loop parser_opt_str_vals and the
 * argument checks of parser_opt_int_vals.
 *
 * Strings are C strings without their terminating NUL; NUL models '\0'.
 */
module ParserLib {
  import opened TmDefs

  datatype Option<T> = None | Some(value: T)

  const NUL: char := '\0'
  const NEWLINE: char := '\n'
  /** MAX_OPT_VALUES */
  const MAX_OPT_VALUES: nat := 8
  /** parser_opt_int_vals only splits within the first 32 characters (strnlen). */
  const OPT_STR_SCAN: nat := 32

  function Min(a: nat, b: nat): nat { if a <= b then a else b }

  // ---------------------------------------------------------------------
  // parser_dupstr (DaaS/PoCPhase3/tm10/parserLib.c:64-79)
  // ---------------------------------------------------------------------

  /** Index of the first c among s[..bound], or bound when s[..bound] has none. */
  function Find(s: seq<char>, c: char, bound: nat): (r: nat)
    requires bound <= |s|
    ensures r <= bound
    ensures forall i :: 0 <= i < r ==> s[i] != c
    ensures r < bound ==> s[r] == c
    decreases bound
  {
    if bound == 0 then 0
    else if s[0] == c then 0
    else 1 + Find(s[1..], c, bound - 1)
  }

  /** Find is the only index with its three properties. */
  lemma {:induction false} FindIsUnique(s: seq<char>, c: char, bound: nat, r: nat)
    requires bound <= |s| && r <= bound
    requires forall i :: 0 <= i < r ==> s[i] != c
    requires r < bound ==> s[r] == c
    ensures Find(s, c, bound) == r
  {
  }

  /** The C string a buffer holds: its characters before the first NUL. */
  function CString(buf: seq<char>): (s: string)
    ensures NUL !in s && |s| <= |buf|
    ensures |s| < |buf| ==> buf[|s|] == NUL
    ensures s == buf[..|s|]
  {
    buf[..Find(buf, NUL, |buf|)]
  }

  /**
   * parser_dupstr: new[max-1] is set to NUL, then orig is copied up to
   * max-1 characters; the copy stops at the first '\n', which it replaces
   * with NUL, and the result is that newline's index (max-1 when there is
   * none). The copy does not stop at a NUL.
   */
  method DupStr(dst: array<char>, orig: array<char>, max: nat) returns (r: nat)
    requires 1 <= max <= dst.Length && max - 1 <= orig.Length && dst != orig
    modifies dst
    ensures r == Find(orig[..], NEWLINE, max - 1)
    ensures dst[..r] == orig[..r]
    ensures dst[r] == NUL && dst[max - 1] == NUL
    ensures forall k :: r < k < max - 1 || max <= k < dst.Length ==> dst[k] == old(dst[k])
  {
    dst[max - 1] := NUL;
    var i := 0;
    while i < max - 1
      invariant 0 <= i <= max - 1
      invariant dst[..i] == orig[..i]
      invariant forall k :: 0 <= k < i ==> orig[k] != NEWLINE
      invariant dst[max - 1] == NUL
      invariant forall k :: i <= k < max - 1 || max <= k < dst.Length ==> dst[k] == old(dst[k])
    {
      dst[i] := orig[i];
      if orig[i] == NEWLINE {
        dst[i] := NUL;
        FindIsUnique(orig[..], NEWLINE, max - 1, i);
        return i;
      }
      i := i + 1;
    }
    FindIsUnique(orig[..], NEWLINE, max - 1, i);
    return i;
  }

  /** What the drivers see of a line after parser_dupstr: the text before its first '\n'. */
  function CopyLine(line: string): (c: string)
    ensures NEWLINE !in c && c <= line
    ensures |c| < |line| ==> line[|c|] == NEWLINE
  {
    line[..Find(line, NEWLINE, |line|)]
  }

  /**
   * parser_dupstr applied to a buffer holding a line as fgets leaves it (at
   * most max-1 characters, no NUL inside, NUL-terminated when shorter) leaves
   * CopyLine(line) as the C string in the copy, even though it may copy bytes
   * past the line's end.
   */
  lemma {:induction false} DupStrCopiesLine(line: string, orig: seq<char>, dst: seq<char>, r: nat, max: nat)
    requires NUL !in line && 1 <= max && |line| <= max - 1 && max - 1 <= |orig| && max <= |dst|
    requires orig[..|line|] == line && (|line| < max - 1 ==> orig[|line|] == NUL)
    requires r == Find(orig, NEWLINE, max - 1)
    requires dst[..r] == orig[..r] && dst[r] == NUL
    ensures CString(dst) == CopyLine(line)
  {
    var j := Find(line, NEWLINE, |line|);
    forall i | 0 <= i < j
      ensures orig[i] != NEWLINE
    {
      assert orig[i] == line[i];
    }
    if j < |line| {
      assert orig[j] == line[j];
      FindIsUnique(orig, NEWLINE, max - 1, j);
      assert dst[..j] == line[..j];
      FindIsUnique(dst, NUL, |dst|, j);
    } else {
      assert r >= |line|;
      var n := |line|;
      assert dst[..n] == line by {
        assert dst[..r][..n] == orig[..r][..n];
      }
      if n < r {
        assert dst[n] == orig[n] == NUL;
      }
      FindIsUnique(dst, NUL, |dst|, n);
    }
  }

  // ---------------------------------------------------------------------
  // parser_opt_str_vals (DaaS/PoCPhase3/tm10/parserLib.c:52-61)
  // ---------------------------------------------------------------------

  /** Length of the separator-free run at the head of s. */
  function RunLength(s: string, seps: set<char>): (n: nat)
    ensures n <= |s|
    ensures forall i :: 0 <= i < n ==> s[i] !in seps
    ensures n < |s| ==> s[n] in seps
  {
    if s == [] || s[0] in seps then 0 else 1 + RunLength(s[1..], seps)
  }

  predicate Token(t: string, seps: set<char>)
  {
    |t| > 0 && forall k :: 0 <= k < |t| ==> t[k] !in seps
  }

  /** The maximal separator-free runs of s, in order: the tokens strtok returns one by one. */
  function Tokens(s: string, seps: set<char>): (ts: seq<string>)
    ensures forall i :: 0 <= i < |ts| ==> Token(ts[i], seps)
    decreases |s|
  {
    if s == [] then []
    else if s[0] in seps then Tokens(s[1..], seps)
    else
      var n := RunLength(s, seps);
      [s[..n]] + Tokens(s[n..], seps)
  }

  lemma {:induction false} RunLengthIs(s: string, seps: set<char>, n: nat)
    requires n <= |s| && (forall i :: 0 <= i < n ==> s[i] !in seps) && (n < |s| ==> s[n] in seps)
    ensures RunLength(s, seps) == n
    decreases n
  {
    if n > 0 {
      RunLengthIs(s[1..], seps, n - 1);
    }
  }

  /** A separator at p contributes no token. */
  lemma TokensSkip(s: string, seps: set<char>, p: nat)
    requires p < |s| && s[p] in seps
    ensures Tokens(s[p..], seps) == Tokens(s[p + 1..], seps)
  {
    assert s[p..][1..] == s[p + 1..];
  }

  /** A maximal run s[p..e] is the next token, and scanning resumes at e. */
  lemma TokensRun(s: string, seps: set<char>, p: nat, e: nat)
    requires p < e <= |s| && (forall k :: p <= k < e ==> s[k] !in seps) && (e < |s| ==> s[e] in seps)
    ensures Tokens(s[p..], seps) == [s[p..e]] + Tokens(s[e..], seps)
  {
    var t := s[p..];
    RunLengthIs(t, seps, e - p);
    assert t[..e - p] == s[p..e];
    assert t[e - p..] == s[e..];
  }

  /**
   * One strtok call: skip separators from pos, then take the run up to the
   * next separator, which strtok overwrites; the next call resumes after it.
   */
  method Strtok(s: string, seps: set<char>, pos: nat) returns (tok: Option<string>, next: nat)
    requires pos <= |s|
    ensures next <= |s|
    ensures tok.None? ==> Tokens(s[pos..], seps) == []
    ensures tok.Some? ==> Tokens(s[pos..], seps) == [tok.value] + Tokens(s[next..], seps)
  {
    var p := pos;
    while p < |s| && s[p] in seps
      invariant pos <= p <= |s|
      invariant Tokens(s[p..], seps) == Tokens(s[pos..], seps)
    {
      TokensSkip(s, seps, p);
      p := p + 1;
    }
    if p == |s| {
      assert s[p..] == [];
      return None, p;
    }
    var e := p;
    while e < |s| && s[e] !in seps
      invariant p <= e <= |s|
      invariant forall k :: p <= k < e ==> s[k] !in seps
    {
      e := e + 1;
    }
    TokensRun(s, seps, p, e);
    tok := Some(s[p..e]);
    if e < |s| {
      TokensSkip(s, seps, e);
      next := e + 1;
    } else {
      next := e;
    }
  }

  /**
   * parser_opt_str_vals: store strtok's tokens in token[0..) while there is
   * one and fewer than nVals are stored; the result is
   * min(number of tokens, nVals), and the rest of the array is untouched.
   * As in the C loop, one more strtok call follows the last store.
   */
  method OptStrVals(s: string, seps: set<char>, nVals: nat, token: array<string>) returns (n: nat)
    requires nVals <= token.Length
    modifies token
    ensures n == Min(|Tokens(s, seps)|, nVals)
    ensures token[..n] == Tokens(s, seps)[..n]
    ensures token[n..] == old(token[n..])
  {
    var i: nat := 0;
    var ptr: Option<string>, pos: nat := Strtok(s, seps, 0);
    assert s[0..] == s;
    while ptr.Some? && i < nVals
      invariant i <= nVals && pos <= |s|
      invariant token[..i] + (if ptr.Some? then [ptr.value] + Tokens(s[pos..], seps) else []) == Tokens(s, seps)
      invariant token[i..] == old(token[i..])
    {
      token[i] := ptr.value;
      assert token[..i + 1] == token[..i] + [ptr.value];
      assert token[i + 1..] == old(token[i..])[1..];
      i := i + 1;
      ptr, pos := Strtok(s, seps, pos);
    }
    n := i;
    assert Tokens(s, seps)[..n] == token[..n];
  }

  /** The tokens parser_opt_str_vals stores: the first nVals of strtok's. */
  function Fields(s: string, seps: set<char>, nVals: nat): (ts: seq<string>)
    ensures |ts| == Min(|Tokens(s, seps)|, nVals) && ts <= Tokens(s, seps)
    ensures forall i :: 0 <= i < |ts| ==> Token(ts[i], seps)
  {
    Tokens(s, seps)[..Min(|Tokens(s, seps)|, nVals)]
  }

  /** A row handler's strtok loop into a fresh token array of nVals entries. */
  method SplitFields(s: string, seps: set<char>, nVals: nat) returns (ts: seq<string>)
    ensures ts == Fields(s, seps, nVals)
  {
    var token := new string[nVals];
    var n := OptStrVals(s, seps, nVals, token);
    ts := token[..n];
  }

  /** Tokens joined by one separator character. */
  function Join(ts: seq<string>, c: char): string
  {
    if |ts| == 0 then []
    else if |ts| == 1 then ts[0]
    else ts[0] + [c] + Join(ts[1..], c)
  }

  /** Splitting a separator-joined row gets back exactly its fields. */
  lemma {:induction false} TokensOfJoin(ts: seq<string>, seps: set<char>, c: char)
    requires c in seps && forall i :: 0 <= i < |ts| ==> Token(ts[i], seps)
    ensures Tokens(Join(ts, c), seps) == ts
    decreases |ts|
  {
    if |ts| == 1 {
      var t := ts[0];
      RunLengthIs(t, seps, |t|);
      assert t[..|t|] == t && t[|t|..] == [];
    } else if |ts| > 1 {
      var t := ts[0];
      var rest := Join(ts[1..], c);
      var s := t + [c] + rest;
      RunLengthIs(s, seps, |t|);
      assert s[..|t|] == t;
      assert s[|t|..] == [c] + rest;
      assert ([c] + rest)[1..] == rest;
      TokensOfJoin(ts[1..], seps, c);
      assert ts == [t] + ts[1..];
    }
  }

  /**
   * A row of separator-joined fields yields its first nVals fields; any
   * further fields are ignored.
   */
  lemma FieldsOfJoin(fields: seq<string>, extra: seq<string>, seps: set<char>, c: char, nVals: nat)
    requires c in seps && |fields| == nVals
    requires forall i :: 0 <= i < |fields + extra| ==> Token((fields + extra)[i], seps)
    ensures Fields(Join(fields + extra, c), seps, nVals) == fields
  {
    TokensOfJoin(fields + extra, seps, c);
    assert (fields + extra)[..nVals] == fields;
  }

  /** No token is empty or holds a separator, however many separators are in a row. */
  lemma TokensAreRuns(s: string, seps: set<char>, i: nat)
    requires i < |Tokens(s, seps)|
    ensures |Tokens(s, seps)[i]| > 0
    ensures forall k :: 0 <= k < |Tokens(s, seps)[i]| ==> Tokens(s, seps)[i][k] !in seps
  {
    assert Token(Tokens(s, seps)[i], seps);
  }

  // ---------------------------------------------------------------------
  // parser_opt_int_vals (DaaS/PoCPhase3/tm10/parserLib.c:18-44)
  // ---------------------------------------------------------------------

  /**
   * parser_opt_int_vals: -1 for a missing string or value array, for
   * nVals == 0 and for nVals > MAX_OPT_VALUES; otherwise the string is split
   * within its first 32 characters by the DPDK library's rte_strsplit (a
   * parameter here, which like the library returns at most nVals tokens) and
   * each token is stored as atol(token) truncated to 32 bits.
   */
  method OptIntVals(confStr: Option<string>, sep: char, nVals: nat, optVals: array?<U32>,
                    strsplit: (string, nat, nat, char) -> seq<string>, atol: string -> int) returns (r: int)
    requires forall s, len, n, c :: |strsplit(s, len, n, c)| <= n
    requires optVals != null ==> nVals <= optVals.Length
    modifies optVals
    ensures confStr.None? || optVals == null || nVals == 0 || nVals > MAX_OPT_VALUES ==> r == -1
    ensures r != -1 ==> confStr.Some? && optVals != null && 1 <= nVals <= MAX_OPT_VALUES
    ensures r != -1 ==>
      var ts := strsplit(confStr.value, Min(|confStr.value|, OPT_STR_SCAN), nVals, sep);
      && r == |ts| <= nVals
      && (forall i :: 0 <= i < r ==> optVals[i] == atol(ts[i]) % U32_LIMIT)
      && (forall i :: r <= i < optVals.Length ==> optVals[i] == old(optVals[i]))
  {
    if confStr.None? || optVals == null || nVals == 0 || nVals > MAX_OPT_VALUES {
      return -1;
    }
    var s := confStr.value;
    var tokens := strsplit(s, Min(|s|, OPT_STR_SCAN), nVals, sep);
    if |tokens| > MAX_OPT_VALUES {
      return -1;
    }
    var i := 0;
    while i < |tokens|
      invariant i <= |tokens|
      invariant forall k :: 0 <= k < i ==> optVals[k] == atol(tokens[k]) % U32_LIMIT
      invariant forall k :: i <= k < optVals.Length ==> optVals[k] == old(optVals[k])
    {
      optVals[i] := atol(tokens[i]) % U32_LIMIT;
      i := i + 1;
    }
    r := |tokens|;
  }

  // ---------------------------------------------------------------------
  // Conversions and the section driver the three configuration parsers share
  // ---------------------------------------------------------------------

  /** A MAC address: six bytes. */
  type MacAddr = m: seq<bv8> | |m| == 6 witness [0, 0, 0, 0, 0, 0]

  /** The four bytes of a dotted-quad IPv4 address, first byte first. */
  type Quad = q: seq<bv8> | |q| == 4 witness [0, 0, 0, 0]

  /**
   * The C library conversions the parsers call, taken as given total
   * functions: atoi and strtol as their (C int or long) value; the two
   * sscanf patterns as the converted bytes when every field converts; the
   * floating-point ECN delay conversion of the top-level row as its packet
   * count; and the configured link speed.
   */
  datatype Conv = Conv(
    atoi: string -> int,
    strtol: string -> int,
    macAddr: string -> Option<MacAddr>,
    dottedQuad: string -> Option<Quad>,
    ecnMarkPkts: string -> nat,
    linkSpeedMbps: U32)

  /** What a row handler returns: 0, -1, a call to rte_exit, or a read of an unset token pointer. */
  datatype RowResult = RowOk | RowFailed | RowExit | RowUndefined

  /** A row handler's result and the configuration it leaves behind. */
  datatype RowStep<V> = RowStep(res: RowResult, v: V)

  /**
   * What a driver loop ends with: every line read (then any sanity check),
   * -1 after an unknown section or a failing row, process exit, or undefined
   * behaviour in a row handler.
   */
  datatype DriveResult<V> = DriveEnd(v: V) | DriveFailed(v: V) | DriveExit | DriveUndefined

  /** How the driver treats one line. */
  datatype LineKind = SkipLine | SectionLine(name: string) | RowLine(text: string)

  /**
   * The driver's test as written: skip a line with strlen 0 or a leading
   * '#'; otherwise copy it with parser_dupstr (CopyLine) and treat it as a
   * section header when the copy starts with '['. A blank line "\n" is not
   * skipped: it becomes the empty row "".
   */
  function ClassifyLineAsWritten(line: string): (k: LineKind)
    ensures k.RowLine? && |line| > 0 && line[0] == NEWLINE ==> k.text == []
  {
    if |line| == 0 || line[0] == '#' then SkipLine
    else
      var c := CopyLine(line);
      if |c| > 0 && c[0] == '[' then SectionLine(c) else RowLine(c)
  }

  /** The driver's test as intended: blank lines are skipped as well. */
  function ClassifyLine(line: string): (k: LineKind)
    ensures k.RowLine? ==> |k.text| > 0 && k == ClassifyLineAsWritten(line)
    ensures k.SectionLine? ==> k == ClassifyLineAsWritten(line)
    ensures k.SkipLine? <==> ClassifyLineAsWritten(line).SkipLine? || CopyLine(line) == []
  {
    if |line| > 0 && CopyLine(line) == [] then SkipLine else ClassifyLineAsWritten(line)
  }

  /** A blank line is read as an empty row by the driver as written, and skipped as intended. */
  lemma BlankLineIsEmptyRow()
    ensures ClassifyLineAsWritten([NEWLINE]) == RowLine([])
    ensures ClassifyLine([NEWLINE]) == SkipLine
  {
    assert CopyLine([NEWLINE]) == [];
  }

  /**
   * The section table lookup: the first name that is a prefix of the
   * header line (strncmp over the name's length), or |names| when none is.
   */
  function SectionIndex(c: string, names: seq<string>): (s: nat)
    ensures s <= |names|
    ensures s < |names| ==> names[s] <= c
    ensures forall k :: 0 <= k < s ==> !(names[k] <= c)
  {
    if names == [] then 0
    else if names[0] <= c then 0
    else 1 + SectionIndex(c, names[1..])
  }

  /**
   * The driver loop over the remaining lines, as a function: s indexes the
   * section table (0, the first section, until a header is read) and
   * sectRow counts the rows accepted in the current section. row is the
   * handler dispatch, row(v, s, sectRow, text).
   */
  function Drive<V>(v: V, rest: seq<string>, names: seq<string>, s: nat, sectRow: nat,
                    row: (V, nat, nat, string) -> RowStep<V>): DriveResult<V>
    decreases |rest|
  {
    if rest == [] then DriveEnd(v)
    else
      match ClassifyLine(rest[0])
      case SkipLine => Drive(v, rest[1..], names, s, sectRow, row)
      case SectionLine(c) =>
        var s' := SectionIndex(c, names);
        if s' == |names| then DriveFailed(v) else Drive(v, rest[1..], names, s', 0, row)
      case RowLine(c) =>
        var st := row(v, s, sectRow, c);
        match st.res
        case RowOk => Drive(st.v, rest[1..], names, s, sectRow + 1, row)
        case RowFailed => DriveFailed(st.v)
        case RowExit => DriveExit
        case RowUndefined => DriveUndefined
  }

  /** A skipped line (comment, blank or empty) anywhere in a file does not change what the file parses to. */
  lemma {:induction false} DriveIgnoresSkippedLine<V>(v: V, before: seq<string>, line: string, after: seq<string>,
                                                     names: seq<string>, s: nat, sectRow: nat,
                                                     row: (V, nat, nat, string) -> RowStep<V>)
    requires ClassifyLine(line).SkipLine?
    ensures Drive(v, before + [line] + after, names, s, sectRow, row) == Drive(v, before + after, names, s, sectRow, row)
    decreases |before|
  {
    if before == [] {
      assert before + [line] + after == [line] + after;
      assert ([line] + after)[1..] == after;
      assert before + after == after;
    } else {
      var l := before + [line] + after;
      var m := before + after;
      assert l[0] == m[0] == before[0];
      assert l[1..] == before[1..] + [line] + after;
      assert m[1..] == before[1..] + after;
      match ClassifyLine(before[0])
      case SkipLine =>
        DriveIgnoresSkippedLine(v, before[1..], line, after, names, s, sectRow, row);
      case SectionLine(c) =>
        var s' := SectionIndex(c, names);
        if s' < |names| {
          DriveIgnoresSkippedLine(v, before[1..], line, after, names, s', 0, row);
        }
      case RowLine(c) =>
        var st := row(v, s, sectRow, c);
        if st.res == RowOk {
          DriveIgnoresSkippedLine(st.v, before[1..], line, after, names, s, sectRow + 1, row);
        }
    }
  }

  /** A line the driver as written reads as an empty row and the intended test skips: "\n" and the like. */
  predicate BlankLine(line: string)
  {
    |line| > 0 && CopyLine(line) == []
  }

  /** Drive with the line test as written: a blank line goes to the current section's handler as "". */
  function DriveAsWritten<V>(v: V, rest: seq<string>, names: seq<string>, s: nat, sectRow: nat,
                             row: (V, nat, nat, string) -> RowStep<V>): DriveResult<V>
    decreases |rest|
  {
    if rest == [] then DriveEnd(v)
    else
      match ClassifyLineAsWritten(rest[0])
      case SkipLine => DriveAsWritten(v, rest[1..], names, s, sectRow, row)
      case SectionLine(c) =>
        var s' := SectionIndex(c, names);
        if s' == |names| then DriveFailed(v) else DriveAsWritten(v, rest[1..], names, s', 0, row)
      case RowLine(c) =>
        var st := row(v, s, sectRow, c);
        match st.res
        case RowOk => DriveAsWritten(st.v, rest[1..], names, s, sectRow + 1, row)
        case RowFailed => DriveFailed(st.v)
        case RowExit => DriveExit
        case RowUndefined => DriveUndefined
  }

  /** The two line tests differ only on blank lines, so on a file without one the two drivers agree. */
  lemma {:induction false} DriveAsWrittenAgrees<V>(v: V, rest: seq<string>, names: seq<string>, s: nat, sectRow: nat,
                                                  row: (V, nat, nat, string) -> RowStep<V>)
    requires forall k :: 0 <= k < |rest| ==> !BlankLine(rest[k])
    ensures DriveAsWritten(v, rest, names, s, sectRow, row) == Drive(v, rest, names, s, sectRow, row)
    decreases |rest|
  {
    if rest != [] {
      assert !BlankLine(rest[0]);
      assert ClassifyLine(rest[0]) == ClassifyLineAsWritten(rest[0]);
      forall k | 0 <= k < |rest[1..]|
        ensures !BlankLine(rest[1..][k])
      {
        assert rest[1..][k] == rest[k + 1];
      }
      match ClassifyLine(rest[0])
      case SkipLine =>
        DriveAsWrittenAgrees(v, rest[1..], names, s, sectRow, row);
      case SectionLine(c) =>
        var s' := SectionIndex(c, names);
        if s' < |names| {
          DriveAsWrittenAgrees(v, rest[1..], names, s', 0, row);
        }
      case RowLine(c) =>
        var st := row(v, s, sectRow, c);
        if st.res == RowOk {
          DriveAsWrittenAgrees(st.v, rest[1..], names, s, sectRow + 1, row);
        }
    }
  }

  /**
   * A blank line right after a section header: as written the handler sees
   * the row "" and its verdict decides the file; as intended the line is
   * dropped.
   */
  lemma BlankRowAfterHeader<V>(v: V, k: nat, after: seq<string>, names: seq<string>,
                               row: (V, nat, nat, string) -> RowStep<V>)
    requires k < |names| && SectionIndex(names[k], names) == k
    requires |names[k]| > 0 && names[k][0] == '[' && NEWLINE !in names[k]
    ensures row(v, k, 0, "").res == RowFailed ==>
      DriveAsWritten(v, [names[k], [NEWLINE]] + after, names, 0, 0, row) == DriveFailed(row(v, k, 0, "").v)
    ensures Drive(v, [names[k], [NEWLINE]] + after, names, 0, 0, row) == Drive(v, [names[k]] + after, names, 0, 0, row)
  {
    var hdr := names[k];
    assert CopyLine(hdr) == hdr by { assert Find(hdr, NEWLINE, |hdr|) == |hdr|; }
    assert CopyLine([NEWLINE]) == [];
    var l := [hdr, [NEWLINE]] + after;
    assert l[0] == hdr && l[1..][0] == [NEWLINE] && l[1..][1..] == after;
    assert ([hdr] + after)[0] == hdr && ([hdr] + after)[1..] == after;
  }

  /** Rows read before any section header go to the first section's handler. */
  lemma DriveStartsInFirstSection<V>(v: V, text: string, rest: seq<string>, names: seq<string>,
                                     row: (V, nat, nat, string) -> RowStep<V>)
    requires |text| > 0 && text[0] != '[' && text[0] != '#' && NEWLINE !in text
    ensures row(v, 0, 0, text).res == RowOk ==>
      Drive(v, [text] + rest, names, 0, 0, row) == Drive(row(v, 0, 0, text).v, rest, names, 0, 1, row)
  {
    FindIsUnique(text, NEWLINE, |text|, |text|);
    assert CopyLine(text) == text;
    assert ([text] + rest)[1..] == rest;
  }

  /**
   * A property that every accepted or failing row keeps holds of what a
   * parse that returns leaves behind.
   */
  lemma {:induction false} DriveKeeps<V>(v: V, rest: seq<string>, names: seq<string>, s: nat, sectRow: nat,
                                         row: (V, nat, nat, string) -> RowStep<V>, inv: V -> bool)
    requires inv(v)
    requires forall w, s', r, t :: inv(w) && (row(w, s', r, t).res == RowOk || row(w, s', r, t).res == RowFailed) ==>
      inv(row(w, s', r, t).v)
    ensures Drive(v, rest, names, s, sectRow, row).DriveEnd? || Drive(v, rest, names, s, sectRow, row).DriveFailed? ==>
      inv(Drive(v, rest, names, s, sectRow, row).v)
    decreases |rest|
  {
    if rest != [] {
      match ClassifyLine(rest[0])
      case SkipLine =>
        DriveKeeps(v, rest[1..], names, s, sectRow, row, inv);
      case SectionLine(c) =>
        var s' := SectionIndex(c, names);
        if s' < |names| {
          DriveKeeps(v, rest[1..], names, s', 0, row, inv);
        }
      case RowLine(c) =>
        var st := row(v, s, sectRow, c);
        if st.res == RowOk {
          DriveKeeps(st.v, rest[1..], names, s, sectRow + 1, row, inv);
        }
    }
  }

  /** SectionIndex is the only index with its three properties. */
  lemma {:induction false} SectionIndexIs(c: string, names: seq<string>, s: nat)
    requires s <= |names| && (s < |names| ==> names[s] <= c)
    requires forall k :: 0 <= k < s ==> !(names[k] <= c)
    ensures SectionIndex(c, names) == s
    decreases |names|
  {
    if names != [] && s > 0 {
      assert !(names[0] <= c);
      SectionIndexIs(c, names[1..], s - 1);
    }
  }

  /**
   * The header lookup loop: compare the header with each section name over
   * the name's length (strncmp) and stop at the first match.
   */
  method FindSection(c: string, names: seq<string>) returns (s: nat)
    ensures s == SectionIndex(c, names)
  {
    s := 0;
    while s < |names|
      invariant s <= |names|
      invariant forall k :: 0 <= k < s ==> !(names[k] <= c)
    {
      if names[s] <= c {
        SectionIndexIs(c, names, s);
        return;
      }
      s := s + 1;
    }
    SectionIndexIs(c, names, s);
  }

  /** What a parse returns to its caller: a return value, a process exit, or undefined behaviour. */
  datatype Outcome = Returned(ret: int) | Exited | Undefined

  /** 0 after a complete parse, -1 after a failed one. */
  function OutcomeOf<V>(d: DriveResult<V>): (o: Outcome)
    ensures o.Returned? <==> d.DriveEnd? || d.DriveFailed?
    ensures o.Returned? ==> (o.ret == 0 <==> d.DriveEnd?) && (o.ret == 0 || o.ret == -1)
  {
    match d
    case DriveEnd(_) => Returned(0)
    case DriveFailed(_) => Returned(-1)
    case DriveExit => Exited
    case DriveUndefined => Undefined
  }
}
