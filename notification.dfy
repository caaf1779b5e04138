/**
  * The notifier: it turns the HTML mail body into plain text, lays the
  * text out as a WeChat message (with the daily report's rows listed
  * under each keyword), and sends on the channels the configuration
  * enables, combining their outcomes.
  */
module Notification {
  import opened Wrappers
  import opened Text
  import opened Records

  // ---------------------------------------------------------------------
  // _html_to_text
  // ---------------------------------------------------------------------

  /** The end of the lazy `[^<]+?>` part of a tag: the index of the first
      '>' at or after `j`, provided no '<' comes before it. */
  function CloseAt(s: string, j: nat): (r: Option<nat>)
    ensures r.Some? ==> j <= r.value < |s| && s[r.value] == '>'
    ensures r.Some? ==> forall k :: j <= k < r.value ==> s[k] != '<' && s[k] != '>'
    decreases |s| - j
  {
    if j >= |s| then None
    else if s[j] == '>' then Some(j)
    else if s[j] == '<' then None
    else CloseAt(s, j + 1)
  }

  /** Where a match of `<[^<]+?>` at the front of `s` ends: a '<', one
      character other than '<', then everything up to the first '>' with
      no '<' on the way. */
  function TagAt(s: string): (r: Option<nat>)
    ensures r.Some? ==> 2 <= r.value < |s| && s[0] == '<' && s[r.value] == '>'
    ensures r.Some? ==> forall k :: 1 <= k < r.value ==> s[k] != '<'
    ensures r.Some? ==> forall k :: 2 <= k < r.value ==> s[k] != '>'
  {
    if |s| >= 2 && s[0] == '<' && s[1] != '<' then CloseAt(s, 2) else None
  }

  /** `re.sub('<[^<]+?>', '', s)`: scanning from the left, each match is
      deleted and every character outside a match is kept. */
  function StripTags(s: string): (r: string)
    ensures |r| <= |s|
    decreases |s|
  {
    if s == [] then []
    else match TagAt(s)
      case Some(k) => StripTags(s[k + 1..])
      case None => [s[0]] + StripTags(s[1..])
  }

  /** A leading stretch without '<' is kept as it is, and stripping
      carries on after it. */
  lemma {:induction false} StripTagsSkip(p: string, rest: string)
    requires '<' !in p
    ensures StripTags(p + rest) == p + StripTags(rest)
    decreases |p|
  {
    if p != [] {
      assert (p + rest)[0] == p[0];
      assert (p + rest)[1..] == p[1..] + rest;
      StripTagsSkip(p[1..], rest);
      assert [p[0]] + p[1..] == p;
    } else {
      assert p + rest == rest;
    }
  }

  /** A text without '<' holds no tag and is kept whole. */
  lemma StripTagsPlain(s: string)
    requires '<' !in s
    ensures StripTags(s) == s
  {
    StripTagsSkip(s, []);
    assert s + [] == s;
  }

  /** The first '>' before any '<' closes the tag. */
  lemma {:induction false} CloseAtFirst(s: string, j: nat, k: nat)
    requires j <= k < |s| && s[k] == '>'
    requires forall m :: j <= m < k ==> s[m] != '<' && s[m] != '>'
    ensures CloseAt(s, j) == Some(k)
    decreases k - j
  {
    if j < k {
      CloseAtFirst(s, j + 1, k);
    }
  }

  /** A tag `<t>` with a non-empty inside free of '<' and '>' is deleted
      whole, and stripping resumes right after it. */
  lemma StripTagsTag(t: string, rest: string)
    requires t != [] && '<' !in t && '>' !in t
    ensures StripTags("<" + t + ">" + rest) == StripTags(rest)
  {
    var s := "<" + t + ">" + rest;
    assert forall m :: 1 <= m <= |t| ==> s[m] == t[m - 1];
    assert s[|t| + 1] == '>';
    CloseAtFirst(s, 2, |t| + 1);
    assert s[|t| + 2..] == rest;
  }

  /** `_html_to_text`: tags are stripped first, and only then are
      `&nbsp;`, `&lt;` and `&gt;` decoded, in that order. */
  function HtmlToText(html: string): string {
    ReplaceAll(ReplaceAll(ReplaceAll(StripTags(html), "&nbsp;", " "), "&lt;", "<"), "&gt;", ">")
  }

  /** The three replacements leave a text without '&' alone. */
  lemma NoEntities(s: string)
    requires '&' !in s
    ensures ReplaceAll(s, "&nbsp;", " ") == s
    ensures ReplaceAll(s, "&lt;", "<") == s
    ensures ReplaceAll(s, "&gt;", ">") == s
  {
    assert s + [] == s;
    ReplaceSkip(s, [], "&nbsp;", " ");
    ReplaceSkip(s, [], "&lt;", "<");
    ReplaceSkip(s, [], "&gt;", ">");
  }

  /** Text with neither '<' nor '&' comes through unchanged. */
  lemma HtmlToTextPlain(s: string)
    requires '<' !in s && '&' !in s
    ensures HtmlToText(s) == s
  {
    StripTagsPlain(s);
    NoEntities(s);
  }

  /** The '&'s of an escaped tag are followed by 'l' and 'g', never by
      `nbsp;`. */
  lemma NbspAbsent(t: string)
    requires '&' !in t
    ensures ReplaceAll("&lt;" + t + "&gt;", "&nbsp;", " ") == "&lt;" + t + "&gt;"
  {
    var x := "&lt;" + t + "&gt;";
    forall i | 4 <= i < 4 + |t|
      ensures x[i] == t[i - 4]
    {
    }
    AbsentPair(x, "&nbsp;");
  }

  /** No `&lt;` follows the tag's name: its only '&' opens `&gt;`. */
  lemma LtAbsent(t: string)
    requires '&' !in t
    ensures ReplaceAll(t + "&gt;", "&lt;", "<") == t + "&gt;"
  {
    var w := t + "&gt;";
    forall i | 0 <= i < |t|
      ensures w[i] == t[i]
    {
    }
    AbsentPair(w, "&lt;");
  }

  /** The leading `&lt;` of an escaped tag becomes '<'. */
  lemma LtDecoded(t: string)
    requires '&' !in t
    ensures ReplaceAll("&lt;" + t + "&gt;", "&lt;", "<") == "<" + t + "&gt;"
  {
    var w := t + "&gt;";
    assert "&lt;" + t + "&gt;" == "&lt;" + w;
    ReplaceHead(w, "&lt;", "<");
    LtAbsent(t);
  }

  /** The trailing `&gt;` becomes '>'. */
  lemma GtDecoded(t: string)
    requires '&' !in t
    ensures ReplaceAll("<" + t + "&gt;", "&gt;", ">") == "<" + t + ">"
  {
    var p := "<" + t;
    assert '&' !in p;
    assert "<" + t + "&gt;" == p + ("&gt;" + []);
    ReplaceSkip(p, "&gt;" + [], "&gt;", ">");
    ReplaceHead([], "&gt;", ">");
  }

  /** Entities are decoded after tags are gone: the escaped tag
      `&lt;t&gt;` comes out as the text `<t>`, while the same tag written
      raw is deleted. */
  lemma EscapedTagSurvives(t: string)
    requires t != [] && '<' !in t && '>' !in t && '&' !in t
    ensures HtmlToText("&lt;" + t + "&gt;") == "<" + t + ">"
    ensures HtmlToText("<" + t + ">") == ""
  {
    StripTagsTag(t, []);
    assert "<" + t + ">" + [] == "<" + t + ">";
    NoEntities([]);
    var x := "&lt;" + t + "&gt;";
    assert '<' !in x by {
      assert forall m :: 4 <= m < 4 + |t| ==> x[m] == t[m - 4];
    }
    StripTagsPlain(x);
    NbspAbsent(t);
    LtDecoded(t);
    GtDecoded(t);
  }

  // ---------------------------------------------------------------------
  // _format_wechat_message: one body line
  // ---------------------------------------------------------------------

  /** Which branch of the formatter a line takes. */
  datatype LineKind = Section | TimeRange | Region | TotalKeywords | Successful | Failed | Growth | Plain

  /** The first test a stripped, non-empty line passes, in the order the
      formatter tries them. */
  function Classify(t: string): LineKind {
    if EndsWith(t, ":") then Section
    else if StartsWith(t, "Time Range:") then TimeRange
    else if StartsWith(t, "Region:") then Region
    else if StartsWith(t, "Total keywords") then TotalKeywords
    else if StartsWith(t, "Successful") then Successful
    else if StartsWith(t, "Failed") then Failed
    else if Contains(t, ":") && Contains(t, "Growth:") then Growth
    else Plain
  }

  /** The marker put in front of a line of each kind; a growth line is
      rebuilt instead, a plain line is kept verbatim. */
  function Marker(kind: LineKind): string {
    match kind
    case Section => "\n\U{1F4CC} "
    case TimeRange => "\U{1F552} "
    case Region => "\U{1F30D} "
    case TotalKeywords => "\U{1F4DD} "
    case Successful => "\U{2705} "
    case Failed => "\U{274C} "
    case Growth => ""
    case Plain => ""
  }

  /** The lead of the keyword line and of the value line a growth line
      becomes. */
  const GrowthArrow := "\U{2197}\U{FE0F} "
  const GrowthLabel := "   \U{589E}\U{957F}\U{5E45}\U{5EA6}: "

  /** A growth line whose `rest.split('Growth:', 1)[1]` raises: after its
      first ':' no 'Growth:' is left. */
  predicate Raises(t: string) {
    Classify(t) == Growth && !Contains(SplitOnce(t, ":")[1], "Growth:")
  }

  /** The output lines for one stripped, non-empty body line, or the
      indexing error. */
  function FormatLine(t: string): (r: Result<seq<string>>)
    ensures r.Err? <==> Raises(t)
    ensures r.Ok? && Classify(t) != Growth ==> r.value == [Marker(Classify(t)) + t]
    ensures r.Ok? && Classify(t) == Growth ==> |r.value| == 2 && StartsWith(r.value[0], GrowthArrow)
  {
    var kind := Classify(t);
    if kind != Growth then Ok([Marker(kind) + t])
    else
      var parts := SplitOnce(t, ":");
      var pieces := SplitOnce(parts[1], "Growth:");
      if |pieces| < 2 then Err("list index out of range")
      else
        assert (GrowthArrow + Strip(parts[0], IsSpace))[..|GrowthArrow|] == GrowthArrow;
        Ok([GrowthArrow + Strip(parts[0], IsSpace), GrowthLabel + Strip(pieces[1], IsParenOrSpace)])
  }

  /** A keyword none of whose `k:` lines can pass for a labelled summary
      line. */
  predicate Unlabelled(k: string) {
    !StartsWith(k + ":", "Time Range:") && !StartsWith(k + ":", "Region:") &&
    !StartsWith(k + ":", "Total keywords") && !StartsWith(k + ":", "Successful") &&
    !StartsWith(k + ":", "Failed")
  }

  /** A line that starts with `k` and then ':' starts with a label exactly
      when `k + ":"` does, for a label with no ':' before its last
      character. */
  lemma LabelOnKeyword(k: string, rest: string, p: string)
    requires ':' !in k && |p| > 0 && ':' !in p[..|p| - 1]
    ensures StartsWith(k + ":" + rest, p) <==> StartsWith(k + ":", p)
  {
    var s := k + ":" + rest;
    if |p| > |k| + 1 {
      assert p[..|p| - 1][|k|] == p[|k|];
      assert s[|k|] == ':';
      if |p| <= |s| {
        assert s[..|p|][|k|] == s[|k|];
      }
    } else {
      assert s[..|k| + 1] == k + ":";
      assert s[..|p|] == (k + ":")[..|p|];
    }
  }

  /** A keyword line `k:rest` that ends in ')' and has a 'Growth:' after
      the keyword takes the growth branch. */
  lemma KeywordLineGrowth(k: string, rest: string)
    requires ':' !in k && Unlabelled(k)
    requires rest != [] && rest[|rest| - 1] == ')' && Contains(rest, "Growth:")
    ensures Classify(k + ":" + rest) == Growth
  {
    var line := k + ":" + rest;
    assert line[|line| - 1] == ')';
    LabelOnKeyword(k, rest, "Time Range:");
    LabelOnKeyword(k, rest, "Region:");
    LabelOnKeyword(k, rest, "Total keywords");
    LabelOnKeyword(k, rest, "Successful");
    LabelOnKeyword(k, rest, "Failed");
    assert OccursAt(line, ":", |k|);
    ContainsIff(line, ":");
    ContainsAppend(k + ":", rest, "Growth:");
  }

  /** The leftmost occurrence is the one with none before it. */
  lemma FindFirst(s: string, pat: string, i: nat)
    requires OccursAt(s, pat, i)
    requires forall j :: 0 <= j < i ==> !OccursAt(s, pat, j)
    ensures Find(s, pat) == Some(i)
  {
  }

  /** The first ':' of `k:rest` is the one after a keyword without ':'. */
  lemma KeywordSplit(k: string, rest: string)
    requires ':' !in k
    ensures SplitOnce(k + ":" + rest, ":") == [k, rest]
  {
    var line := k + ":" + rest;
    assert OccursAt(line, ":", |k|);
    forall j | 0 <= j < |k| ensures !OccursAt(line, ":", j) {
      assert line[j] == k[j];
    }
    FindFirst(line, ":", |k|);
    assert line[..|k|] == k;
    assert line[|k| + 1..] == rest;
  }

  /** The first 'Growth:' of ` q (Growth: n)` is the item's own when the
      query has none. */
  lemma GrowthFirst(q: string, n: string)
    requires !Contains(q, "Growth:")
    ensures Find(" " + q + " (Growth: " + n + ")", "Growth:") == Some(|q| + 3)
  {
    var rest := " " + q + " (Growth: " + n + ")";
    var g := |q| + 3;
    assert OccursAt(rest, "Growth:", g) by {
      assert rest[g..g + 7] == "Growth:";
    }
    ContainsIff(q, "Growth:");
    forall j | 0 <= j < g ensures !OccursAt(rest, "Growth:", j) {
      if j + 7 <= |rest| {
        var w := rest[j..j + 7];
        if j == 0 {
          assert w[0] == ' ';
        } else if j + 7 <= |q| + 1 {
          assert w == q[j - 1..j + 6];
          assert !OccursAt(q, "Growth:", j - 1);
        } else if j <= |q| + 1 {
          assert w[|q| + 1 - j] == rest[|q| + 1] == ' ';
        } else {
          assert w[0] == rest[|q| + 2] == '(';
        }
      }
    }
    FindFirst(rest, "Growth:", g);
  }

  /** Splitting ` q (Growth: n)` once on 'Growth:' gives the query part and
      the value part. */
  lemma GrowthSplit(q: string, n: string)
    requires !Contains(q, "Growth:")
    ensures SplitOnce(" " + q + " (Growth: " + n + ")", "Growth:") == [" " + q + " (", " " + n + ")"]
  {
    var a, b := " " + q + " (", " " + n + ")";
    assert " " + q + " (Growth: " + n + ")" == a + "Growth:" + b;
    GrowthFirst(q, n);
    assert (a + "Growth:" + b)[..|a|] == a;
    assert (a + "Growth:" + b)[|a| + 7..] == b;
  }

  /** Stripping spaces and parentheses from ` n)` gives back the number. */
  lemma ValueStrip(v: int)
    ensures Strip(" " + IntToString(v) + ")", IsParenOrSpace) == IntToString(v)
  {
    var n := IntToString(v);
    forall m | 0 <= m < |n| ensures !IsParenOrSpace(n[m]) {
      if m > 0 || v >= 0 { assert IsDigit(n[m]); }
    }
    StripMiddle(" ", n, ")", IsParenOrSpace);
  }

  /** Any growth line `k:a Growth:b`, where `k` has no ':' and the first
      'Growth:' after the ':' is the one shown, becomes two lines: the
      arrow and `k` stripped of spaces, then the label and `b` with
      parentheses and spaces trimmed from both ends. Whatever `a` holds
      (the related query) is not emitted. */
  lemma GrowthLineFormat(k: string, a: string, b: string)
    requires ':' !in k
    requires Classify(k + ":" + a + "Growth:" + b) == Growth
    requires Find(a + "Growth:" + b, "Growth:") == Some(|a|)
    ensures FormatLine(k + ":" + a + "Growth:" + b) ==
      Ok([GrowthArrow + Strip(k, IsSpace), GrowthLabel + Strip(b, IsParenOrSpace)])
  {
    var rest := a + "Growth:" + b;
    assert k + ":" + a + "Growth:" + b == k + ":" + rest;
    KeywordSplit(k, rest);
    assert rest[..|a|] == a;
    assert rest[|a| + 7..] == b;
    assert SplitOnce(rest, "Growth:") == [a, b];
  }

  /** An alert item's line read as `k:a Growth:b`. */
  lemma AlertLineShape(k: string, q: string, n: string)
    ensures k + ": " + q + " (Growth: " + n + ")" == k + ":" + (" " + q + " (") + "Growth:" + (" " + n + ")")
    ensures " " + q + " (Growth: " + n + ")" == (" " + q + " (") + "Growth:" + (" " + n + ")")
    ensures k + ":" + (" " + q + " (Growth: " + n + ")") == k + ":" + (" " + q + " (") + "Growth:" + (" " + n + ")")
  {
  }

  /** An alert item `k: q (Growth: v)` on a line of its own becomes the
      keyword line and the value line, with the value read back exactly. */
  lemma AlertLineFormat(k: string, q: string, v: int)
    requires ':' !in k && Unlabelled(k)
    requires !Contains(q, "Growth:")
    ensures FormatLine(k + ": " + q + " (Growth: " + IntToString(v) + ")") ==
      Ok([GrowthArrow + Strip(k, IsSpace), GrowthLabel + IntToString(v)])
  {
    var n := IntToString(v);
    AlertLineShape(k, q, n);
    GrowthFirst(q, n);
    KeywordLineGrowth(k, " " + q + " (Growth: " + n + ")");
    GrowthLineFormat(k, " " + q + " (", " " + n + ")");
    ValueStrip(v);
  }

  // ---------------------------------------------------------------------
  // _format_wechat_message: the body
  // ---------------------------------------------------------------------

  /** The formatted lines for the body lines `ls`: each is stripped,
      blank ones are dropped, the rest are formatted in order, and the
      first line that raises ends the whole message with the error. */
  function BodyLines(ls: seq<string>): Result<seq<string>> {
    if ls == [] then Ok([])
    else match BodyLines(ls[..|ls| - 1])
      case Err(e) => Err(e)
      case Ok(out) =>
        var t := Strip(ls[|ls| - 1], IsSpace);
        if t == [] then Ok(out)
        else match FormatLine(t)
          case Err(e) => Err(e)
          case Ok(more) => Ok(out + more)
  }

  /** How many output lines a body line yields: none when blank, two for
      a growth line, one for any other. */
  function Yield(line: string): nat {
    var t := Strip(line, IsSpace);
    if t == [] then 0 else if Classify(t) == Growth then 2 else 1
  }

  function TotalYield(ls: seq<string>): nat {
    if ls == [] then 0 else TotalYield(ls[..|ls| - 1]) + Yield(ls[|ls| - 1])
  }

  /** When no line raises, the body gives exactly one line per kept
      non-growth line and two per growth line. */
  lemma {:induction false} BodyLinesCount(ls: seq<string>)
    ensures BodyLines(ls).Ok? ==> |BodyLines(ls).value| == TotalYield(ls)
  {
    if ls != [] {
      BodyLinesCount(ls[..|ls| - 1]);
    }
  }

  /** A body line that raises once stripped. */
  predicate LineRaises(line: string) {
    Raises(Strip(line, IsSpace))
  }

  /** Some element of `xs` satisfies `p`, looked for from the back. */
  predicate AnyOf<T>(xs: seq<T>, p: T -> bool) {
    xs != [] && (AnyOf(xs[..|xs| - 1], p) || p(xs[|xs| - 1]))
  }

  lemma {:induction false} AnyOfIff<T>(xs: seq<T>, p: T -> bool)
    ensures AnyOf(xs, p) <==> exists i :: 0 <= i < |xs| && p(xs[i])
  {
    if xs != [] {
      var init := xs[..|xs| - 1];
      AnyOfIff(init, p);
      assert forall i :: 0 <= i < |init| ==> init[i] == xs[i];
    }
  }

  /** The body fails exactly when the lines before the last did, or the
      last one raises. */
  lemma BodyLinesLast(ls: seq<string>)
    requires ls != []
    ensures BodyLines(ls).Err? <==> BodyLines(ls[..|ls| - 1]).Err? || LineRaises(ls[|ls| - 1])
  {
    var t := Strip(ls[|ls| - 1], IsSpace);
    if t == [] {
      assert !Raises(t) by { assert !Contains(t, ":"); }
    }
  }

  lemma {:induction false} BodyLinesAny(ls: seq<string>)
    ensures BodyLines(ls).Err? <==> AnyOf(ls, LineRaises)
  {
    if ls != [] {
      BodyLinesAny(ls[..|ls| - 1]);
      BodyLinesLast(ls);
    }
  }

  /** The body fails exactly when one of its lines raises. */
  lemma BodyLinesErr(ls: seq<string>)
    ensures BodyLines(ls).Err? <==> exists i :: 0 <= i < |ls| && LineRaises(ls[i])
  {
    BodyLinesAny(ls);
    AnyOfIff(ls, LineRaises);
  }

  /** Once a prefix of the lines has raised, the whole body has, with the
      same error. */
  lemma {:induction false} BodyLinesSticky(ls: seq<string>, n: nat)
    requires n <= |ls| && BodyLines(ls[..n]).Err?
    ensures BodyLines(ls) == BodyLines(ls[..n])
    decreases |ls| - n
  {
    if n < |ls| {
      assert ls[..n + 1][..n] == ls[..n];
      BodyLinesSticky(ls, n + 1);
    } else {
      assert ls[..n] == ls;
    }
  }

  // ---------------------------------------------------------------------
  // _format_wechat_message: the detailed report section
  // ---------------------------------------------------------------------

  function Header(subject: string): seq<string> {
    ["\U{1F4CA} " + subject, Repeat('=', 30)]
  }

  const ReportHeading := "\n\U{1F4CC} \U{8BE6}\U{7EC6}\U{62A5}\U{544A}:"

  function KeywordHeading(k: string): string {
    "\n\U{1F50D} " + k
  }

  function KindLabel(kind: Kind): string {
    match kind
    case Rising => "  \U{2197}\U{FE0F} \U{4E0A}\U{5347}\U{8D8B}\U{52BF}:"
    case Top => "  \U{2B50} \U{70ED}\U{95E8}\U{8D8B}\U{52BF}:"
  }

  function RowLine(r: ReportRow): string {
    "    \U{2022} " + r.relatedKeyword + " (" + IntToString(r.value) + ")"
  }

  /** One bullet line per row, in row order. */
  function RowLines(rows: seq<ReportRow>): (r: seq<string>)
    ensures |r| == |rows|
  {
    if rows == [] then [] else RowLines(rows[..|rows| - 1]) + [RowLine(rows[|rows| - 1])]
  }

  /** A labelled block of rows, or nothing when there are no rows. */
  function Block(sel: seq<ReportRow>, title: string): seq<string> {
    if sel == [] then [] else [title] + RowLines(sel)
  }

  /** The blocks of keyword `k` for the types `kinds`, in that order:
      each lists the rows of `k` of that type under the type's label. */
  function KindBlocks(rows: seq<ReportRow>, k: string, kinds: seq<Kind>): seq<string> {
    if kinds == [] then []
    else
      var kind := kinds[|kinds| - 1];
      KindBlocks(rows, k, kinds[..|kinds| - 1]) + Block(Select(rows, k, kind), KindLabel(kind))
  }

  const KindOrder := [Rising, Top]

  /** A keyword's heading, then its rising block, then its top block. */
  function KeywordBlock(rows: seq<ReportRow>, k: string): seq<string> {
    [KeywordHeading(k)] + KindBlocks(rows, k, KindOrder)
  }

  function KeywordBlocks(keys: seq<string>, rows: seq<ReportRow>): seq<string> {
    if keys == [] then []
    else KeywordBlocks(keys[..|keys| - 1], rows) + KeywordBlock(rows, keys[|keys| - 1])
  }

  /** The `keyword` column. */
  function Keywords(rows: seq<ReportRow>): (r: seq<string>)
    ensures |r| == |rows| && forall i :: 0 <= i < |rows| ==> r[i] == rows[i].keyword
  {
    seq(|rows|, i requires 0 <= i < |rows| => rows[i].keyword)
  }

  /** The detailed section: nothing without report data; otherwise its
      heading, then a block per distinct keyword in order of first
      appearance. */
  function ReportSection(report: Option<seq<ReportRow>>): seq<string> {
    match report
    case None => []
    case Some(rows) => [ReportHeading] + KeywordBlocks(FirstAppearances(Keywords(rows)), rows)
  }

  /** How many rows the blocks of the keywords `keys` list. */
  function Listed(keys: seq<string>, rows: seq<ReportRow>): nat {
    if keys == [] then 0
    else
      var k := keys[|keys| - 1];
      Listed(keys[..|keys| - 1], rows) + |Select(rows, k, Rising)| + |Select(rows, k, Top)|
  }

  /** How often `w` occurs in `keys`. */
  function Occurrences(keys: seq<string>, w: string): nat {
    if keys == [] then 0
    else Occurrences(keys[..|keys| - 1], w) + (if keys[|keys| - 1] == w then 1 else 0)
  }

  lemma {:induction false} OccursOnce(keys: seq<string>, w: string)
    requires Distinct(keys) && w in keys
    ensures Occurrences(keys, w) == 1
  {
    var init := keys[..|keys| - 1];
    assert Distinct(init);
    if keys[|keys| - 1] == w {
      assert w !in init by {
        forall i | 0 <= i < |init| ensures init[i] != w {
          assert init[i] == keys[i];
        }
      }
      OccursNot(init, w);
    } else {
      assert keys == init + [keys[|keys| - 1]];
      OccursOnce(init, w);
    }
  }

  lemma {:induction false} OccursNot(keys: seq<string>, w: string)
    requires w !in keys
    ensures Occurrences(keys, w) == 0
  {
    if keys != [] {
      OccursNot(keys[..|keys| - 1], w);
    }
  }

  /** One more row adds one listed row per occurrence of its keyword. */
  lemma {:induction false} ListedStep(keys: seq<string>, rows: seq<ReportRow>, x: ReportRow)
    ensures Listed(keys, rows + [x]) == Listed(keys, rows) + Occurrences(keys, x.keyword)
  {
    if keys != [] {
      ListedStep(keys[..|keys| - 1], rows, x);
      assert (rows + [x])[..|rows|] == rows;
    }
  }

  lemma {:induction false} ListedAll(keys: seq<string>, rows: seq<ReportRow>)
    requires Distinct(keys)
    requires forall i :: 0 <= i < |rows| ==> rows[i].keyword in keys
    ensures Listed(keys, rows) == |rows|
  {
    if rows == [] {
      ListedNone(keys);
    } else {
      var init := rows[..|rows| - 1];
      ListedAll(keys, init);
      assert rows == init + [rows[|rows| - 1]];
      ListedStep(keys, init, rows[|rows| - 1]);
      OccursOnce(keys, rows[|rows| - 1].keyword);
    }
  }

  lemma {:induction false} ListedNone(keys: seq<string>)
    ensures Listed(keys, []) == 0
  {
    if keys != [] {
      ListedNone(keys[..|keys| - 1]);
    }
  }

  /** The detailed section lists every report row exactly once: summed
      over the distinct keywords, the rising and top blocks hold as many
      rows as the report. */
  lemma ReportListsEveryRow(rows: seq<ReportRow>)
    ensures Listed(FirstAppearances(Keywords(rows)), rows) == |rows|
  {
    var ks := Keywords(rows);
    assert forall i :: 0 <= i < |rows| ==> rows[i].keyword in FirstAppearances(ks) by {
      forall i | 0 <= i < |rows| ensures rows[i].keyword in FirstAppearances(ks) {
        assert ks[i] == rows[i].keyword;
      }
    }
    ListedAll(FirstAppearances(ks), rows);
  }

  /** The lines of the body once converted to text. */
  function TextLines(body: string): seq<string> {
    SplitOn(HtmlToText(body), '\n')
  }

  /** `_format_wechat_message` as a value: the header, the formatted
      body lines and the report section, joined by newlines; or the error
      a growth line raised. */
  function WeChatMessage(subject: string, body: string, report: Option<seq<ReportRow>>): Result<string> {
    match BodyLines(TextLines(body))
    case Err(e) => Err(e)
    case Ok(ls) => Ok(Join(Header(subject) + ls + ReportSection(report), "\n"))
  }

  /** A message always opens with the subject line and a rule of 30 '='. */
  lemma MessageHeader(subject: string, body: string, report: Option<seq<ReportRow>>)
    requires WeChatMessage(subject, body, report).Ok?
    ensures StartsWith(WeChatMessage(subject, body, report).value,
                       "\U{1F4CA} " + subject + "\n" + Repeat('=', 30))
  {
    HeaderOpens(subject, BodyLines(TextLines(body)).value, ReportSection(report));
  }

  lemma HeaderOpens(subject: string, ls: seq<string>, section: seq<string>)
    ensures StartsWith(Join(Header(subject) + ls + section, "\n"),
                       "\U{1F4CA} " + subject + "\n" + Repeat('=', 30))
  {
    var h := Header(subject);
    var more := ls + section;
    AppendAssoc3(h, ls, section);
    assert h == [h[0], h[1]];
    JoinStartsWith(h[0], h[1], more, "\n");
  }

  /** The message fails exactly when a line of the converted body,
      stripped, is a growth line that raises. */
  lemma MessageErr(subject: string, body: string, report: Option<seq<ReportRow>>)
    ensures WeChatMessage(subject, body, report).Err? <==>
      exists i :: 0 <= i < |TextLines(body)| && LineRaises(TextLines(body)[i])
  {
    BodyLinesErr(TextLines(body));
  }

  // ---------------------------------------------------------------------
  // _format_wechat_message: the method
  // ---------------------------------------------------------------------

  /** `out` is `lines` with the title and the first `n` rows of `sel`
      appended. */
  ghost predicate Emitted(lines: seq<string>, sel: seq<ReportRow>, title: string, n: nat, out: seq<string>) {
    n <= |sel| && out == lines + ([title] + RowLines(sel[..n]))
  }

  lemma EmittedStep(lines: seq<string>, sel: seq<ReportRow>, title: string, n: nat, out: seq<string>)
    requires Emitted(lines, sel, title, n, out) && n < |sel|
    ensures Emitted(lines, sel, title, n + 1, out + [RowLine(sel[n])])
  {
    assert sel[..n + 1][..n] == sel[..n];
  }

  lemma EmittedAll(lines: seq<string>, sel: seq<ReportRow>, title: string, out: seq<string>)
    requires sel != [] && Emitted(lines, sel, title, |sel|, out)
    ensures out == lines + Block(sel, title)
  {
    assert sel[..|sel|] == sel;
  }

  /** The rows `sel`, appended under `title` when there are any. */
  method AppendBlock(lines: seq<string>, sel: seq<ReportRow>, title: string) returns (out: seq<string>)
    ensures out == lines + Block(sel, title)
  {
    out := lines;
    if sel != [] {
      out := out + [title];
      assert Emitted(lines, sel, title, 0, out);
      for n := 0 to |sel|
        invariant Emitted(lines, sel, title, n, out)
      {
        EmittedStep(lines, sel, title, n, out);
        out := out + [RowLine(sel[n])];
      }
      EmittedAll(lines, sel, title, out);
    }
  }

  /** `out` is `lines` with the heading `heading` and the blocks of `k`
      for the first `m` of the types `kinds` appended. */
  ghost predicate Headed(lines: seq<string>, heading: string, rows: seq<ReportRow>, k: string,
                         kinds: seq<Kind>, m: nat, out: seq<string>) {
    m <= |kinds| && out == lines + ([heading] + KindBlocks(rows, k, kinds[..m]))
  }

  lemma HeadedStep(lines: seq<string>, heading: string, rows: seq<ReportRow>, k: string,
                   kinds: seq<Kind>, m: nat, out: seq<string>)
    requires Headed(lines, heading, rows, k, kinds, m, out) && m < |kinds|
    ensures Headed(lines, heading, rows, k, kinds, m + 1, out + Block(Select(rows, k, kinds[m]), KindLabel(kinds[m])))
  {
    assert kinds[..m + 1][..m] == kinds[..m];
    var blocks := KindBlocks(rows, k, kinds[..m]);
    var next := Block(Select(rows, k, kinds[m]), KindLabel(kinds[m]));
    assert KindBlocks(rows, k, kinds[..m + 1]) == blocks + next;
    AppendAssoc(lines, [heading], blocks, next);
  }

  /** A keyword's heading and its rising and top blocks, appended. */
  method AppendKeyword(lines: seq<string>, rows: seq<ReportRow>, k: string) returns (out: seq<string>)
    ensures out == lines + KeywordBlock(rows, k)
  {
    var heading := KeywordHeading(k);
    out := lines + [heading];
    var kinds := KindOrder;
    assert Headed(lines, heading, rows, k, kinds, 0, out);
    for m := 0 to |kinds|
      invariant Headed(lines, heading, rows, k, kinds, m, out)
    {
      HeadedStep(lines, heading, rows, k, kinds, m, out);
      var sel := Select(rows, k, kinds[m]);
      out := AppendBlock(out, sel, KindLabel(kinds[m]));
    }
    assert kinds[..|kinds|] == kinds;
  }

  /** `formatted` holds the header and the formatted first `i` body
      lines, none of which raised. */
  ghost predicate Formatted(subject: string, lines: seq<string>, i: nat, formatted: seq<string>) {
    i <= |lines| && BodyLines(lines[..i]).Ok? && formatted == Header(subject) + BodyLines(lines[..i]).value
  }

  lemma FormattedStep(subject: string, lines: seq<string>, i: nat, formatted: seq<string>)
    requires Formatted(subject, lines, i, formatted) && i < |lines|
    ensures var t := Strip(lines[i], IsSpace);
      (t == [] ==> Formatted(subject, lines, i + 1, formatted)) &&
      (t != [] && FormatLine(t).Ok? ==> Formatted(subject, lines, i + 1, formatted + FormatLine(t).value)) &&
      (t != [] && FormatLine(t).Err? ==> BodyLines(lines[..i + 1]) == Err(FormatLine(t).error))
  {
    assert lines[..i + 1][..i] == lines[..i];
    var t := Strip(lines[i], IsSpace);
    if t != [] && FormatLine(t).Ok? {
      AppendAssoc3(Header(subject), BodyLines(lines[..i]).value, FormatLine(t).value);
    }
  }

  /** `formatted` holds `start`, the section heading and the blocks of
      the first `j` keywords. */
  ghost predicate Reported(start: seq<string>, keys: seq<string>, rows: seq<ReportRow>, j: nat, formatted: seq<string>) {
    j <= |keys| && formatted == start + ([ReportHeading] + KeywordBlocks(keys[..j], rows))
  }

  lemma ReportedStep(start: seq<string>, keys: seq<string>, rows: seq<ReportRow>, j: nat, formatted: seq<string>)
    requires Reported(start, keys, rows, j, formatted) && j < |keys|
    ensures Reported(start, keys, rows, j + 1, formatted + KeywordBlock(rows, keys[j]))
  {
    assert keys[..j + 1][..j] == keys[..j];
    AppendAssoc(start, [ReportHeading], KeywordBlocks(keys[..j], rows), KeywordBlock(rows, keys[j]));
  }

  /** With every body line formatted and the report section appended,
      the joined lines are the message. */
  lemma MessageDone(subject: string, body: string, report: Option<seq<ReportRow>>,
                    start: seq<string>, formatted: seq<string>)
    requires Formatted(subject, TextLines(body), |TextLines(body)|, start)
    requires formatted == start + ReportSection(report)
    ensures WeChatMessage(subject, body, report) == Ok(Join(formatted, "\n"))
  {
    var lines := TextLines(body);
    assert lines[..|lines|] == lines;
  }

  /** `_format_wechat_message`: the lines are collected one by one, then
      joined by newlines; a growth line that raises ends it with the
      error. */
  method FormatWeChatMessage(subject: string, body: string, report: Option<seq<ReportRow>>)
    returns (r: Result<string>)
    ensures r == WeChatMessage(subject, body, report)
  {
    var text := HtmlToText(body);
    var lines := SplitOn(text, '\n');
    assert lines == TextLines(body);
    var formatted := Header(subject);
    assert lines[..0] == [];
    for i := 0 to |lines|
      invariant Formatted(subject, lines, i, formatted)
    {
      FormattedStep(subject, lines, i, formatted);
      var line := Strip(lines[i], IsSpace);
      if line == [] {
        continue;
      }
      var out := FormatLine(line);
      if out.Err? {
        BodyLinesSticky(lines, i + 1);
        return Err(out.error);
      }
      formatted := formatted + out.value;
    }
    ghost var start := formatted;
    if report.Some? {
      var rows := report.value;
      formatted := formatted + [ReportHeading];
      var keys := FirstAppearances(Keywords(rows));
      assert Reported(start, keys, rows, 0, formatted);
      for j := 0 to |keys|
        invariant Reported(start, keys, rows, j, formatted)
      {
        ReportedStep(start, keys, rows, j, formatted);
        formatted := AppendKeyword(formatted, rows, keys[j]);
      }
      assert keys[..|keys|] == keys;
    } else {
      assert formatted == start + [];
    }
    MessageDone(subject, body, report, start, formatted);
    r := Ok(Join(formatted, "\n"));
  }

  // ---------------------------------------------------------------------
  // NotificationManager
  // ---------------------------------------------------------------------

  /** The configured method names that enable each channel. */
  predicate EmailEnabled(channel: string) {
    channel == "email" || channel == "both"
  }

  predicate WeChatEnabled(channel: string) {
    channel == "wechat" || channel == "both"
  }

  /** The notifier with its WeChat login state. The outcomes of the
      outside calls are parameters: `login` is whether a login attempt
      succeeds, `emailSent` whether the mail went out, `delivered`
      whether every WeChat send went through. */
  class NotificationManager {
    /** The configured delivery method. */
    const channel: string
    var wechatLoggedIn: bool

    /** Starts logged out, then tries to log in when WeChat is enabled. */
    constructor(channel: string, login: bool)
      ensures this.channel == channel
      ensures wechatLoggedIn == (WeChatEnabled(channel) && login)
    {
      this.channel := channel;
      wechatLoggedIn := false;
      new;
      if WeChatEnabled(channel) {
        InitWeChat(login);
      }
    }

    /** `_init_wechat`: one login attempt; a failed one leaves the
        notifier logged out. */
    method InitWeChat(login: bool)
      modifies this
      ensures wechatLoggedIn == login
    {
      wechatLoggedIn := login;
    }

    /** `_send_wechat`: log in again if needed and give up when that
        fails; otherwise format the message (a formatting error is a
        failure) and report whether the sends went through. `report` is
        the report read from the CSV attachment, if any. */
    method SendWeChat(subject: string, body: string, report: Option<seq<ReportRow>>,
                      login: bool, delivered: bool) returns (ok: bool)
      modifies this
      ensures wechatLoggedIn == (old(wechatLoggedIn) || login)
      ensures ok <==> wechatLoggedIn && WeChatMessage(subject, body, report).Ok? && delivered
    {
      if !wechatLoggedIn {
        InitWeChat(login);
        if !wechatLoggedIn {
          return false;
        }
      }
      var message := FormatWeChatMessage(subject, body, report);
      if message.Err? {
        return false;
      }
      ok := delivered;
    }

    /** `send_notification`: every enabled channel is tried, WeChat even
        after the mail failed, and the result is the conjunction of the
        tried channels' results (true when none is enabled). */
    method SendNotification(subject: string, body: string, report: Option<seq<ReportRow>>,
                            emailSent: bool, login: bool, delivered: bool) returns (ok: bool)
      modifies this
      ensures WeChatEnabled(channel) ==> wechatLoggedIn == (old(wechatLoggedIn) || login)
      ensures !WeChatEnabled(channel) ==> wechatLoggedIn == old(wechatLoggedIn)
      ensures ok <==> (EmailEnabled(channel) ==> emailSent) &&
                      (WeChatEnabled(channel) ==> wechatLoggedIn && WeChatMessage(subject, body, report).Ok? && delivered)
    {
      var success := true;
      if EmailEnabled(channel) {
        success := success && emailSent;
      }
      if WeChatEnabled(channel) {
        var sent := SendWeChat(subject, body, report, login, delivered);
        success := success && sent;
      }
      ok := success;
    }
  }
}
