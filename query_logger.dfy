/**
 * The Drizzle query logger (src/config/db/logger.ts): the query text is normalised, string
 * parameters lose one pair of surrounding double quotes, and the parameters are cut into rows of
 * as many values as the query has `$n` placeholders.
 */
module QueryLogger {
  import opened Stores

  // ---------------------------------------------------------------- whitespace

  /** The characters JavaScript's `\s` and `trim` treat as white space. */
  predicate IsSpace(c: char)
  {
    c in {' ', '\t', '\n', '\r', '\U{000B}', '\U{000C}', '\U{00A0}', '\U{1680}', '\U{2028}', '\U{2029}',
          '\U{202F}', '\U{205F}', '\U{3000}', '\U{FEFF}'}
    || ('\U{2000}' <= c <= '\U{200A}')
  }

  /** The text with every white-space character removed: what normalisation must keep. */
  function Visible(s: string): (r: string)
    ensures |r| <= |s|
  {
    if s == [] then [] else (if IsSpace(s[0]) then [] else [s[0]]) + Visible(s[1..])
  }

  lemma {:induction false} VisibleAppend(a: string, b: string)
    ensures Visible(a + b) == Visible(a) + Visible(b)
    decreases |a|
  {
    if a != [] {
      assert (a + b)[0] == a[0] && (a + b)[1..] == a[1..] + b;
      VisibleAppend(a[1..], b);
    } else {
      assert a + b == b;
    }
  }

  /** The text after its leading white space. */
  function SkipSpaces(s: string): (r: string)
    ensures |r| <= |s| && r == s[|s| - |r|..]
    ensures r == [] || !IsSpace(r[0])
    ensures Visible(r) == Visible(s)
  {
    if s != [] && IsSpace(s[0]) then SkipSpaces(s[1..]) else s
  }

  /** No two white-space characters are adjacent, and every one of them is a blank. */
  predicate Collapsed(s: string)
  {
    && (forall i :: 0 <= i < |s| && IsSpace(s[i]) ==> s[i] == ' ')
    && (forall i :: 0 <= i < |s| - 1 ==> !(IsSpace(s[i]) && IsSpace(s[i + 1])))
  }

  /** `replace(/\s+/g, ' ')`: every run of white space becomes one blank. */
  function Collapse(s: string): (r: string)
    ensures Visible(r) == Visible(s)
    ensures Collapsed(r)
    ensures (r == []) == (s == [])
    ensures s != [] ==> (IsSpace(r[0]) <==> IsSpace(s[0]))
    decreases |s|
  {
    if s == [] then []
    else if IsSpace(s[0]) then
      var rest := SkipSpaces(s[1..]);
      VisibleAppend([' '], Collapse(rest));
      [' '] + Collapse(rest)
    else
      VisibleAppend([s[0]], Collapse(s[1..]));
      [s[0]] + Collapse(s[1..])
  }

  /** The text without its trailing white space. */
  function DropTrailingSpaces(s: string): (r: string)
    ensures |r| <= |s| && r == s[..|r|]
    ensures r == [] || !IsSpace(r[|r| - 1])
    ensures Visible(r) == Visible(s)
  {
    if s != [] && IsSpace(s[|s| - 1]) then
      VisibleAppend(s[..|s| - 1], [s[|s| - 1]]);
      assert s == s[..|s| - 1] + [s[|s| - 1]];
      DropTrailingSpaces(s[..|s| - 1])
    else s
  }

  /** `String.prototype.trim`. */
  function Trim(s: string): (r: string)
    ensures Visible(r) == Visible(s)
    ensures r == [] || (!IsSpace(r[0]) && !IsSpace(r[|r| - 1]))
  {
    DropTrailingSpaces(SkipSpaces(s))
  }

  /** `query.replace(/\s+/g, ' ').trim()`. */
  function FormatQuery(query: string): (r: string)
    ensures Visible(r) == Visible(query)
    ensures Collapsed(r)
    ensures r == [] || (!IsSpace(r[0]) && !IsSpace(r[|r| - 1]))
  {
    TrimKeepsCollapsed(Collapse(query));
    Trim(Collapse(query))
  }

  lemma TrimKeepsCollapsed(s: string)
    requires Collapsed(s)
    ensures Collapsed(Trim(s))
  {
    var front := SkipSpaces(s);
    SubstringCollapsed(s, |s| - |front|, |s|);
    SubstringCollapsed(front, 0, |DropTrailingSpaces(front)|);
  }

  /** A slice of a collapsed text is collapsed. */
  lemma SubstringCollapsed(s: string, i: nat, j: nat)
    requires Collapsed(s) && i <= j <= |s|
    ensures Collapsed(s[i..j])
  {
    forall k | 0 <= k < j - i - 1 ensures !(IsSpace(s[i..j][k]) && IsSpace(s[i..j][k + 1])) {
      assert s[i..j][k] == s[i + k] && s[i..j][k + 1] == s[i + k + 1];
    }
  }

  // ---------------------------------------------------------------- parameters

  /** A parameter: a string, or any other value (kept as it is). */
  datatype Param = StringParam(text: string) | OtherParam(rendered: string)

  /** `.` in a JavaScript regular expression matches anything but a line terminator. */
  predicate IsLineTerminator(c: char)
  {
    c in {'\n', '\r', '\U{2028}', '\U{2029}'}
  }

  /** `replace(/^"(.*)"$/, '$1')`. */
  function StripQuotes(s: string): (r: string)
    ensures r == s || (|s| >= 2 && s == "\"" + r + "\"")
    ensures r != s <==>
      |s| >= 2 && s[0] == '"' && s[|s| - 1] == '"' && forall i :: 1 <= i < |s| - 1 ==> !IsLineTerminator(s[i])
  {
    if |s| >= 2 && s[0] == '"' && s[|s| - 1] == '"' && forall i :: 1 <= i < |s| - 1 ==> !IsLineTerminator(s[i]) then
      assert s == "\"" + s[1..|s| - 1] + "\"";
      s[1..|s| - 1]
    else s
  }

  function FormatParam(p: Param): (q: Param)
    ensures p.OtherParam? ==> q == p
    ensures p.StringParam? ==> q == StringParam(StripQuotes(p.text))
  {
    match p
    case StringParam(s) => StringParam(StripQuotes(s))
    case OtherParam(_) => p
  }

  /** `params.map(...)`. */
  function FormatParams(ps: seq<Param>): (qs: seq<Param>)
    ensures |qs| == |ps| && forall i :: 0 <= i < |ps| ==> qs[i] == FormatParam(ps[i])
  {
    seq(|ps|, i requires 0 <= i < |ps| => FormatParam(ps[i]))
  }

  // ---------------------------------------------------------------- placeholders

  predicate IsDigit(c: char)
  {
    '0' <= c <= '9'
  }

  /** Whether a match of `/\$\d+/` starts at `i`. */
  predicate PlaceholderAt(s: string, i: int)
  {
    0 <= i < |s| - 1 && s[i] == '$' && IsDigit(s[i + 1])
  }

  /** `(query.match(/\$\d+/g) || []).length`; matches cannot overlap, as a digit is not a `$`. */
  function PlaceholderCount(s: string): nat
  {
    if |s| < 2 then 0 else PlaceholderCount(s[..|s| - 1]) + (if PlaceholderAt(s, |s| - 2) then 1 else 0)
  }

  /** The positions at which a placeholder starts. */
  function PlaceholderPositions(s: string): set<int>
  {
    set i | 0 <= i < |s| - 1 && PlaceholderAt(s, i)
  }

  /** The count is the number of places in the query where a placeholder starts. */
  lemma {:induction false} PlaceholderCountIsPositions(s: string)
    ensures PlaceholderCount(s) == |PlaceholderPositions(s)|
    decreases |s|
  {
    if |s| < 2 {
      assert PlaceholderPositions(s) == {};
    } else {
      var front := s[..|s| - 1];
      PlaceholderCountIsPositions(front);
      forall i | 0 <= i < |s| - 2 ensures PlaceholderAt(front, i) <==> PlaceholderAt(s, i) {
        assert front[i] == s[i] && front[i + 1] == s[i + 1];
      }
      var last := if PlaceholderAt(s, |s| - 2) then {|s| - 2} else {};
      assert PlaceholderPositions(s) == PlaceholderPositions(front) + last;
      assert |s| - 2 !in PlaceholderPositions(front);
    }
  }

  // ---------------------------------------------------------------- rows

  function Min(a: int, b: int): int
  {
    if a <= b then a else b
  }

  /**
   * The grouping loop as written: `for (i = 0; i < length; i += paramCount) push(slice(i, i + paramCount))`,
   * with `fuel` bounding the number of iterations; `None` means the loop has not finished.
   */
  function GroupAsWritten<T>(ps: seq<T>, paramCount: nat, i: nat, fuel: nat): Option<seq<seq<T>>>
    decreases fuel
  {
    if i >= |ps| then Some([])
    else if fuel == 0 then None
    else
      match GroupAsWritten(ps, paramCount, i + paramCount, fuel - 1)
      case None => None
      case Some(rest) => Some([ps[i..Min(i + paramCount, |ps|)]] + rest)
  }

  /** With no placeholder and at least one parameter the loop never ends, whatever the fuel. */
  lemma {:induction false} GroupAsWrittenDiverges<T>(ps: seq<T>, i: nat, fuel: nat)
    requires i < |ps|
    ensures GroupAsWritten(ps, 0, i, fuel) == None
    decreases fuel
  {
    if fuel > 0 {
      GroupAsWrittenDiverges(ps, i, fuel - 1);
    }
  }

  /** A query without placeholders, logged with one parameter: the loop does not terminate. */
  lemma NoPlaceholderHangs(fuel: nat)
    ensures PlaceholderCount("SELECT 1") == 0
    ensures GroupAsWritten([StringParam("x")], PlaceholderCount("SELECT 1"), 0, fuel) == None
  {
    var q := "SELECT 1";
    assert forall i :: 0 <= i < |q| ==> q[i] != '$';
    assert PlaceholderPositions(q) == {};
    PlaceholderCountIsPositions(q);
    GroupAsWrittenDiverges([StringParam("x")], 0, fuel);
  }

  /** Consecutive slices of `step` values; the last one may be shorter. */
  function Chunks<T>(ps: seq<T>, step: nat): seq<seq<T>>
    requires step > 0
    decreases |ps|
  {
    if ps == [] then [] else [ps[..Min(step, |ps|)]] + Chunks(ps[Min(step, |ps|)..], step)
  }

  /** The rows of the corrected grouping: with no placeholder, all parameters form one row. */
  function Rows<T>(ps: seq<T>, paramCount: nat): seq<seq<T>>
  {
    if paramCount > 0 then Chunks(ps, paramCount) else if ps == [] then [] else [ps]
  }

  /** When the query has placeholders, the loop as written computes exactly these rows. */
  lemma {:induction false} GroupAsWrittenComputesChunks<T>(ps: seq<T>, paramCount: nat, i: nat, fuel: nat)
    requires paramCount > 0 && i <= |ps| && fuel >= |ps| - i
    ensures GroupAsWritten(ps, paramCount, i, fuel) == Some(Chunks(ps[i..], paramCount))
    decreases |ps| - i
  {
    if i < |ps| {
      var j := Min(i + paramCount, |ps|);
      GroupAsWrittenComputesChunks(ps, paramCount, j, fuel - 1);
      assert ps[i..][..Min(paramCount, |ps| - i)] == ps[i..j];
      assert ps[i..][Min(paramCount, |ps| - i)..] == ps[j..];
      if i + paramCount >= |ps| {
        assert GroupAsWritten(ps, paramCount, i + paramCount, fuel - 1) == Some([]);
      }
    }
  }

  function Flatten<T>(gs: seq<seq<T>>): seq<T>
  {
    if gs == [] then [] else gs[0] + Flatten(gs[1..])
  }

  /** What the rows promise: they concatenate to the parameters, every row but the last is full,
   *  and the last holds between one and `step` values. */
  predicate Chunked<T(==)>(gs: seq<seq<T>>, ps: seq<T>, step: nat)
  {
    && Flatten(gs) == ps
    && (forall g :: 0 <= g < |gs| - 1 ==> |gs[g]| == step)
    && (gs != [] ==> 1 <= |gs[|gs| - 1]| <= step)
    && (gs == [] <==> ps == [])
  }

  lemma {:induction false} ChunksChunked<T>(ps: seq<T>, step: nat)
    requires step > 0
    ensures Chunked(Chunks(ps, step), ps, step)
    decreases |ps|
  {
    if ps != [] {
      var k := Min(step, |ps|);
      ChunksChunked(ps[k..], step);
      var gs := Chunks(ps, step);
      assert gs[1..] == Chunks(ps[k..], step);
      assert ps == ps[..k] + ps[k..];
    }
  }

  /** The corrected rows are a chunking of the parameters, by `paramCount` or as one row. */
  lemma RowsChunked<T>(ps: seq<T>, paramCount: nat)
    ensures Chunked(Rows(ps, paramCount), ps, if paramCount > 0 then paramCount else |ps|)
  {
    if paramCount > 0 {
      ChunksChunked(ps, paramCount);
    } else if ps != [] {
      assert Flatten([ps]) == ps + Flatten([ps][1..]);
    }
  }

  /** The corrected grouping loop: it steps by `paramCount`, or by the whole list when that is 0. */
  method GroupParams<T(==)>(ps: seq<T>, paramCount: nat) returns (groupedParams: seq<seq<T>>)
    ensures groupedParams == Rows(ps, paramCount)
    ensures Chunked(groupedParams, ps, if paramCount > 0 then paramCount else |ps|)
  {
    var step := if paramCount > 0 then paramCount else |ps|;
    groupedParams := [];
    var i := 0;
    while i < |ps|
      invariant step > 0 || ps == []
      invariant 0 <= i && (i < |ps| ==> step > 0)
      invariant ps != [] ==> groupedParams + Chunks(ps[Min(i, |ps|)..], step) == Chunks(ps, step)
      invariant ps == [] ==> groupedParams == []
      decreases |ps| - i
    {
      var j := Min(i + step, |ps|);
      assert ps[i..][..Min(step, |ps| - i)] == ps[i..j];
      assert ps[i..][Min(step, |ps| - i)..] == ps[j..];
      groupedParams := groupedParams + [ps[i..j]];
      i := i + step;
    }
    if ps != [] {
      assert ps[Min(i, |ps|)..] == [];
      if paramCount == 0 {
        assert ps[..Min(step, |ps|)] == ps && ps[Min(step, |ps|)..] == [];
        assert Chunks(ps, step) == [ps];
      }
    }
    RowsChunked(ps, paramCount);
  }

  // ---------------------------------------------------------------- the log entry

  /** One line of the parameter section: `Row ${index + 1}: ${JSON.stringify(params)}`. */
  datatype RowLine = RowLine(number: nat, values: seq<Param>)

  function RowLines(groups: seq<seq<Param>>): (lines: seq<RowLine>)
    ensures |lines| == |groups|
    ensures forall k :: 0 <= k < |groups| ==> lines[k].number == k + 1 && lines[k].values == groups[k]
  {
    seq(|groups|, k requires 0 <= k < |groups| => RowLine(k + 1, groups[k]))
  }

  datatype QueryLog = QueryLog(query: string, rows: seq<RowLine>)

  /**
   * `logQuery` with the corrected grouping: the normalised query and its numbered rows, which
   * together hold every formatted parameter in order.
   */
  method LogQuery(query: string, params: seq<Param>) returns (log: QueryLog)
    ensures log.query == FormatQuery(query)
    ensures log.rows == RowLines(Rows(FormatParams(params), PlaceholderCount(query)))
  {
    var formattedQuery := FormatQuery(query);
    var formattedParams := FormatParams(params);
    var paramCount := PlaceholderCount(query);
    var groupedParams := GroupParams(formattedParams, paramCount);
    log := QueryLog(formattedQuery, RowLines(groupedParams));
  }
}
