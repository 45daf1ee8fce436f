/** The pure formatting the stages apply to a topic list: chart labels and bar order
    (generate_visualization), the numbered prompt lines (analyze_with_ai) and the rows
    of the report table (create_report). */
module Formatting {
  import opened Py
  import opened Values
  import opened Fetcher

  /** Chart labels keep at most this many characters of a title. */
  const LabelBudget: nat := 10

  /** `title[:10] + '...' if len(title) > 10 else title`: a long title keeps its first
      ten characters followed by "...", a short one is kept whole; either way the label
      begins with a prefix of the title. */
  function ShortLabel(title: string): (short: string)
    ensures |title| <= LabelBudget ==> short == title
    ensures |title| > LabelBudget ==>
      |short| == LabelBudget + 3 && short[..LabelBudget] == title[..LabelBudget] && short[LabelBudget..] == "..."
  {
    if |title| > LabelBudget then title[..LabelBudget] + "..." else title
  }

  /** Shortening a label again changes nothing. */
  lemma ShortLabelIdempotent(title: string)
    ensures ShortLabel(ShortLabel(title)) == ShortLabel(title)
  {
  }

  /** The title of `t` is a string, so `len(title)` does not raise. */
  predicate HasStringTitle(t: Topic)
  {
    t.title.Some? && t.title.value.JStr?
  }

  /** The short titles of generate_visualization, in topic order; `len()` raises a
      TypeError at the first title that is not a string. */
  function Labels(topics: seq<Topic>): (r: Result<seq<string>>)
    ensures r.Ok? <==> forall i :: 0 <= i < |topics| ==> HasStringTitle(topics[i])
    ensures r.Ok? ==>
      |r.value| == |topics| &&
      forall i :: 0 <= i < |topics| ==> r.value[i] == ShortLabel(topics[i].title.value.s)
  {
    if topics == [] then Ok([])
    else if !HasStringTitle(topics[0]) then Err("TypeError: title has no len()")
    else
      match Labels(topics[1..])
      case Err(e) => Err(e)
      case Ok(rest) => Ok([ShortLabel(topics[0].title.value.s)] + rest)
  }

  /** The scores of the topics, in topic order. */
  function Scores(topics: seq<Topic>): (scores: seq<Option<Json>>)
    ensures |scores| == |topics|
    ensures forall i :: 0 <= i < |topics| ==> scores[i] == topics[i].hotScore
  {
    seq(|topics|, i requires 0 <= i < |topics| => topics[i].hotScore)
  }

  /** Python's `s[::-1]`: element i of the result is element n-1-i of `s`. */
  function Reverse<T>(s: seq<T>): (r: seq<T>)
    ensures |r| == |s|
    ensures forall i :: 0 <= i < |s| ==> r[i] == s[|s| - 1 - i]
  {
    if |s| == 0 then [] else [s[|s| - 1]] + Reverse(s[..|s| - 1])
  }

  /** Reversing twice gives back the sequence. */
  lemma ReverseInvolution<T>(s: seq<T>)
    ensures Reverse(Reverse(s)) == s
  {
  }

  /** The bars handed to barh, listed from the bottom of the chart to the top. */
  datatype Bars = Bars(labels: seq<string>, scores: seq<Option<Json>>)

  /** The labels and scores of a chart, reversed together so that the first-ranked topic
      is the last bar, which barh draws at the top. */
  function ChartBars(topics: seq<Topic>): (r: Result<Bars>)
    ensures r.Ok? <==> forall i :: 0 <= i < |topics| ==> HasStringTitle(topics[i])
    ensures r.Ok? ==>
      |r.value.labels| == |topics| && |r.value.scores| == |topics| &&
      forall i :: 0 <= i < |topics| ==>
        r.value.labels[i] == ShortLabel(topics[|topics| - 1 - i].title.value.s) &&
        r.value.scores[i] == topics[|topics| - 1 - i].hotScore
  {
    match Labels(topics)
    case Err(e) => Err(e)
    case Ok(labels) => Ok(Bars(Reverse(labels), Reverse(Scores(topics))))
  }

  /** The first-ranked topic is drawn as the top bar, the last-ranked one at the bottom. */
  lemma {:induction false} TopRankDrawnAtTop(topics: seq<Topic>)
    requires topics != [] && ChartBars(topics).Ok?
    ensures var bars := ChartBars(topics).value;
      bars.labels[|topics| - 1] == ShortLabel(topics[0].title.value.s) &&
      bars.scores[|topics| - 1] == topics[0].hotScore &&
      bars.labels[0] == ShortLabel(topics[|topics| - 1].title.value.s) &&
      bars.scores[0] == topics[|topics| - 1].hotScore
  {
  }

  /** One line of the prompt: `f"{rank}. {title} (热度: {hot_score})"`. */
  function PromptLine(rank: nat, t: Topic): (line: string)
    ensures |line| > |Decimal(rank)| + 2 && line[..|Decimal(rank)| + 2] == Decimal(rank) + ". "
    ensures '\n' !in Text(t.title) && '\n' !in Text(t.hotScore) ==> '\n' !in line
  {
    Decimal(rank) + ". " + Text(t.title) + " (热度: " + Text(t.hotScore) + ")"
  }

  /** The prompt lines, the i-th numbered i+1. */
  function PromptLines(topics: seq<Topic>): seq<string>
  {
    seq(|topics|, i requires 0 <= i < |topics| => PromptLine(i + 1, topics[i]))
  }

  /** `"\n".join(...)` of the prompt lines: the topic list embedded in the prompt. */
  function TopicsText(topics: seq<Topic>): string
  {
    Join("\n", PromptLines(topics))
  }

  /** Neither the title nor the score of `t` prints a newline. */
  predicate SingleLine(t: Topic)
  {
    '\n' !in Text(t.title) && '\n' !in Text(t.hotScore)
  }

  /** When no title or score prints a newline, the topic list in the prompt consists of
      exactly one line per topic, in rank order, line i reading
      `"{i+1}. {title} (热度: {hot_score})"`. */
  lemma TopicsTextLines(topics: seq<Topic>)
    requires topics != []
    requires forall i :: 0 <= i < |topics| ==> SingleLine(topics[i])
    ensures Split(TopicsText(topics), '\n') == PromptLines(topics)
    ensures Count(TopicsText(topics), '\n') == |topics| - 1
  {
    var lines := PromptLines(topics);
    forall i | 0 <= i < |lines|
      ensures '\n' !in lines[i]
    {
      assert lines[i] == PromptLine(i + 1, topics[i]);
    }
    assert "\n" == ['\n'];
    SplitOfJoin(lines, '\n');
  }

  /** The table row create_report writes for the topic of rank `rank`: the rank, the
      title as a link to the url (neither escaped), and the score. */
  function Row(rank: nat, t: Topic): string
  {
    "\n            <tr>\n                <td>" + Decimal(rank) + "</td>\n                <td><a href=\""
    + Text(t.url) + "\" target=\"_blank\">" + Text(t.title) + "</a></td>\n                <td>"
    + Text(t.hotScore) + "</td>\n            </tr>\n            "
  }

  /** The concatenation of `parts`, as repeated `+=` builds it. */
  function Concat(parts: seq<string>): string
  {
    if parts == [] then "" else parts[0] + Concat(parts[1..])
  }

  /** Concatenating a sequence is concatenating any prefix of it and then the rest. */
  lemma {:induction false} ConcatSplit(parts: seq<string>, k: nat)
    requires k <= |parts|
    ensures Concat(parts) == Concat(parts[..k]) + Concat(parts[k..])
    decreases k
  {
    if k == 0 {
      assert parts[..0] == [] && parts[0..] == parts;
    } else {
      ConcatSplit(parts[1..], k - 1);
      assert parts[..k][0] == parts[0] && parts[..k][1..] == parts[1..][..k - 1];
      assert parts[1..][k - 1..] == parts[k..];
    }
  }

  /** Part i of a concatenation stands between the parts before it and those after it. */
  lemma ConcatAt(parts: seq<string>, i: nat)
    requires i < |parts|
    ensures Concat(parts) == Concat(parts[..i]) + parts[i] + Concat(parts[i + 1..])
  {
    ConcatSplit(parts, i);
    var rest := parts[i..];
    assert rest[0] == parts[i] && rest[1..] == parts[i + 1..];
  }

  /** The row of every topic, the i-th numbered i+1. */
  function RowList(topics: seq<Topic>): seq<string>
  {
    seq(|topics|, i requires 0 <= i < |topics| => Row(i + 1, topics[i]))
  }

  /** The rows of a prefix are the prefix of the rows. */
  lemma RowListPrefix(topics: seq<Topic>, k: nat)
    requires k <= |topics|
    ensures RowList(topics)[..k] == RowList(topics[..k])
  {
    var a, b := RowList(topics)[..k], RowList(topics[..k]);
    forall j | 0 <= j < k
      ensures a[j] == b[j]
    {
      assert topics[..k][j] == topics[j];
    }
  }

  /** The rows of the report's topic table. */
  function Table(topics: seq<Topic>): string
  {
    Concat(RowList(topics))
  }

  /** Row i of the table (numbered i+1) comes after the rows of all earlier topics and
      before those of all later ones: one row per topic, in input order. */
  lemma TableRowAt(topics: seq<Topic>, i: nat)
    requires i < |topics|
    ensures Table(topics) == Table(topics[..i]) + Row(i + 1, topics[i]) + Concat(RowList(topics)[i + 1..])
  {
    var rows := RowList(topics);
    ConcatAt(rows, i);
    RowListPrefix(topics, i);
  }

  /** Concatenating one more part appends it. */
  lemma ConcatAppend(parts: seq<string>, x: string)
    ensures Concat(parts + [x]) == Concat(parts) + x
  {
    var all := parts + [x];
    ConcatSplit(all, |parts|);
    assert all[..|parts|] == parts;
    assert all[|parts|..] == [x];
    assert Concat([x]) == x + Concat([]);
  }

  /** The rows of one more topic are the earlier rows followed by its row. */
  lemma RowListAppend(topics: seq<Topic>, t: Topic)
    ensures RowList(topics + [t]) == RowList(topics) + [Row(|topics| + 1, t)]
  {
    var all := topics + [t];
    var a, b := RowList(all), RowList(topics) + [Row(|topics| + 1, t)];
    forall j | 0 <= j < |a|
      ensures a[j] == b[j]
    {
      assert all[j] == if j < |topics| then topics[j] else t;
    }
  }

  /** Appending a topic appends its row, numbered after the others. */
  lemma TableAppend(topics: seq<Topic>, t: Topic)
    ensures Table(topics + [t]) == Table(topics) + Row(|topics| + 1, t)
  {
    RowListAppend(topics, t);
    ConcatAppend(RowList(topics), Row(|topics| + 1, t));
  }

  /** One step of the `+=` loop: the table of the first i+1 topics is the table of the
      first i followed by row i+1. */
  lemma TablePrefixStep(topics: seq<Topic>, i: nat)
    requires i < |topics|
    ensures Table(topics[..i + 1]) == Table(topics[..i]) + Row(i + 1, topics[i])
  {
    assert topics[..i + 1] == topics[..i] + [topics[i]];
    TableAppend(topics[..i], topics[i]);
  }
}
