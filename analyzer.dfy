/** The HotTopicsAnalyzer object: its configuration read from the environment, its six
    stages and the run that drives them. Network, disk, clock, plotting, chat-completion
    and mail effects are the answers recorded in a World; each stage returns what it
    hands on and describes what it asked of the outside. */
module Analyzer {
  import opened Py
  import opened Values
  import opened Fetcher
  import opened Formatting

  /** `os.getenv(key)`. */
  function Getenv(env: map<string, string>, key: string): Option<string>
  {
    if key in env then Some(env[key]) else None
  }

  /** `os.getenv(key, default)`. */
  function GetenvOr(env: map<string, string>, key: string, default: string): string
  {
    if key in env then env[key] else default
  }

  /** The text analyze_with_ai returns when no API key was configured. */
  const DisabledMessage := "AI分析功能未启用，请设置DEEPSEEK_API_KEY环境变量"
  /** What analyze_with_ai puts before the error text when the service call raises. */
  const FailurePrefix := "AI分析过程中出现错误: "
  const ChatModel := "deepseek-chat"
  const SystemRole := "你是一位专业的数据分析师和趋势洞察专家"
  const Greeting := "您好，"
  const MailText := "附件是最新的热点分析报告，请查收。"

  /** The chat-completion request: model, system role and the topic list embedded in
      the user prompt. */
  datatype ChatRequest = ChatRequest(model: string, systemRole: string, topicsText: string)

  /** What analyze_with_ai returns, with the request it sent to the service, if any. */
  datatype Analysis = Analysis(text: string, request: Option<ChatRequest>)

  /** What save_hot_topics writes and returns (the path, or the exception it raises). */
  datatype Saved = Saved(document: Json, path: Result<string>)

  /** What generate_visualization plots and returns (a path, None, or an exception). */
  datatype Visualization = Visualization(bars: Option<Bars>, path: Result<Option<string>>)

  /** The parts of the HTML report that depend on the run: the topic table rows, whether
      the chart is embedded, and the analysis with its line breaks. */
  datatype ReportBody = ReportBody(topicsHtml: string, chartEmbedded: bool, analysisHtml: string)

  /** The calls send_email makes on the mail client. */
  datatype SmtpCall =
    | Connect(user: string, password: string, host: Option<string>)
    | Send(to: seq<string>, contents: seq<string>)
    | Close

  /** A mail-client session in call order: one connect, then at most one send, and a
      close only directly after that send. */
  predicate MailSession(smtp: seq<SmtpCall>)
  {
    1 <= |smtp| <= 3 && smtp[0].Connect? &&
    (|smtp| >= 2 ==> smtp[1].Send?) &&
    (|smtp| == 3 ==> smtp[2].Close?)
  }

  /** How the mail client answers: the first of its calls that raises, if any. */
  datatype MailAnswer = Delivered | ConnectFails(error: string) | SendFails(error: string) | CloseFails(error: string)

  /** What send_email returns, with the calls it made on the mail client. */
  datatype Delivery = Delivery(sent: bool, smtp: seq<SmtpCall>)

  /** The answers of the outside world during one run. Each stage reads the clock
      itself, so each file gets its own timestamp. */
  datatype World = World(
    response: Result<Json>,       // requests.get + raise_for_status + response.json()
    saveStamp: string,
    saveWrite: Outcome,           // writing the snapshot file
    chartStamp: string,
    chartRender: Outcome,         // matplotlib drawing and savefig
    completion: Result<string>,   // the chat-completion call: its content or str(e)
    reportStamp: string,
    chartOnDisk: bool,            // os.path.exists(chart_path)
    reportWrite: Outcome,         // writing the report file
    mail: MailAnswer)

  /** The stages of a run, in the order run invokes them. */
  datatype Stage = Fetching | Persisting | Visualizing | Analyzing | Rendering | Delivering

  /** A stage invocation with the arguments run passes to it. */
  datatype Call =
    | GetBaiduHotCall
    | SaveHotTopicsCall(topics: seq<Topic>)
    | GenerateVisualizationCall(topics: seq<Topic>)
    | AnalyzeWithAiCall(topics: seq<Topic>)
    | CreateReportCall(topics: seq<Topic>, analysis: string, chart: Option<string>)
    | SendEmailCall(reportFile: string, chart: Option<string>)

  /** How a run ends: aborted after an empty fetch, stopped by an exception a stage does
      not catch, or done with the values the last stages returned. */
  datatype RunResult =
    | Aborted
    | Crashed(stage: Stage, error: string)
    | Done(chart: Option<string>, analysis: string, reportFile: string, delivered: bool)

  /** send_email's guard: a user, a password and a non-empty recipient list. */
  predicate EmailConfigured(user: Option<string>, password: Option<string>, recipients: seq<string>)
  {
    Truthy(user) && Truthy(password) && |recipients| > 0
  }

  /** Recipients come from `os.getenv("EMAIL_RECIPIENTS", "").split(",")`, which is never
      empty (`"".split(",")` is `[""]`), so the recipient check never skips sending:
      only the user and password decide. */
  lemma RecipientCheckNeverSkips(user: Option<string>, password: Option<string>, raw: string)
    ensures |Split(raw, ',')| >= 1
    ensures Split("", ',') == [""]
    ensures EmailConfigured(user, password, Split(raw, ',')) <==> Truthy(user) && Truthy(password)
  {
  }

  class HotTopicsAnalyzer {
    const deepseekApiKey: Option<string>
    const deepseekBaseUrl: string
    const emailUser: Option<string>
    const emailPassword: Option<string>
    const emailHost: Option<string>
    const emailRecipients: seq<string>
    const dataDir: string
    const reportDir: string
    /** Whether an AI client was created (`self.ai_client` is not None). */
    const aiClient: bool

    /** Reads the configuration from the environment `env`. */
    constructor (env: map<string, string>)
      ensures deepseekApiKey == Getenv(env, "DEEPSEEK_API_KEY")
      ensures deepseekBaseUrl == "https://api.deepseek.com"
      ensures emailUser == Getenv(env, "EMAIL_USER")
      ensures emailPassword == Getenv(env, "EMAIL_PASSWORD")
      ensures emailHost == Getenv(env, "EMAIL_HOST")
      ensures emailRecipients == Split(GetenvOr(env, "EMAIL_RECIPIENTS", ""), ',')
      ensures |emailRecipients| >= 1
      ensures dataDir == "data" && reportDir == "reports"
      ensures aiClient == Truthy(deepseekApiKey)
    {
      deepseekApiKey := Getenv(env, "DEEPSEEK_API_KEY");
      deepseekBaseUrl := "https://api.deepseek.com";
      emailUser := Getenv(env, "EMAIL_USER");
      emailPassword := Getenv(env, "EMAIL_PASSWORD");
      emailHost := Getenv(env, "EMAIL_HOST");
      emailRecipients := Split(GetenvOr(env, "EMAIL_RECIPIENTS", ""), ',');
      dataDir := "data";
      reportDir := "reports";
      aiClient := Truthy(Getenv(env, "DEEPSEEK_API_KEY"));
    }

    /** get_baidu_hot: builds one topic per provider item, then keeps the first ten;
        any exception on the way yields the empty list. */
    method GetBaiduHot(response: Result<Json>) returns (topics: seq<Topic>)
      ensures topics == FetchTopics(response)
    {
      if response.Err? {
        return [];
      }
      var content := ContentItems(response.value);
      if content.Err? {
        return [];
      }
      var items := content.value;
      var hotTopics: seq<Topic> := [];
      var i := 0;
      while i < |items|
        invariant 0 <= i <= |items|
        invariant AllObjects(items[..i])
        invariant |hotTopics| == i
        invariant forall k :: 0 <= k < i ==> hotTopics[k] == ToTopic(items[k].members)
      {
        if !items[i].JObj? {
          return [];
        }
        hotTopics := hotTopics + [ToTopic(items[i].members)];
        i := i + 1;
        assert AllObjects(items[..i]) by {
          assert forall k :: 0 <= k < i ==> items[..i][k] == items[k];
        }
      }
      assert items[..i] == items;
      assert hotTopics == TopicsOf(items);
      topics := Take(hotTopics, MaxTopics);
    }

    function SnapshotPath(stamp: string): string
    {
      dataDir + "/baidu_hot_" + stamp + ".json"
    }

    function ChartPath(stamp: string): string
    {
      dataDir + "/hot_chart_" + stamp + ".png"
    }

    function ReportPath(stamp: string): string
    {
      reportDir + "/热点分析报告_" + stamp + ".html"
    }

    /** save_hot_topics: writes the topics as a JSON document that reads back as the same
        topics, and returns the file name; a failing write raises. */
    function SaveHotTopics(topics: seq<Topic>, stamp: string, write: Outcome): (s: Saved)
      ensures (forall i :: 0 <= i < |topics| ==> Normal(topics[i])) ==> ReadSnapshot(s.document) == Some(topics)
      ensures s.path == if write.Pass? then Ok(SnapshotPath(stamp)) else Err(write.error)
    {
      assert (forall i :: 0 <= i < |topics| ==> Normal(topics[i])) ==> ReadSnapshot(SnapshotJson(topics)) == Some(topics) by {
        if forall i :: 0 <= i < |topics| ==> Normal(topics[i]) {
          SnapshotRoundTrip(topics);
        }
      }
      Saved(SnapshotJson(topics), if write.Pass? then Ok(SnapshotPath(stamp)) else Err(write.error))
    }

    /** generate_visualization: None for no topics; otherwise the bars, reversed so the
        first-ranked topic is on top, and the chart path, or the exception raised by a
        non-string title or by the plotting library. */
    function GenerateVisualization(topics: seq<Topic>, stamp: string, render: Outcome): (v: Visualization)
      ensures topics == [] ==> v == Visualization(None, Ok(None))
      ensures topics != [] && v.path.Ok? ==> v.path.value == Some(ChartPath(stamp))
      ensures topics != [] ==>
        (v.path.Ok? <==> render.Pass? && forall i :: 0 <= i < |topics| ==> HasStringTitle(topics[i]))
      ensures v.bars.Some? ==> ChartBars(topics).Ok? && v.bars == Some(ChartBars(topics).value)
      ensures topics != [] && ChartBars(topics).Ok? ==> v.bars.Some?
    {
      if topics == [] then Visualization(None, Ok(None))
      else
        match ChartBars(topics)
        case Err(e) => Visualization(None, Err(e))
        case Ok(bars) =>
          Visualization(Some(bars), if render.Pass? then Ok(Some(ChartPath(stamp))) else Err(render.error))
    }

    /** analyze_with_ai: without a client it returns the disabled message and sends
        nothing; otherwise it sends the numbered topic list and returns the service's
        text, or the failure prefix followed by the error text. */
    function AnalyzeWithAi(topics: seq<Topic>, completion: Result<string>): (a: Analysis)
      ensures !aiClient ==> a == Analysis(DisabledMessage, None)
      ensures aiClient ==> a.request == Some(ChatRequest(ChatModel, SystemRole, TopicsText(topics)))
      ensures aiClient && completion.Ok? ==> a.text == completion.value
      ensures aiClient && completion.Err? ==> a.text == FailurePrefix + completion.error
    {
      if !aiClient then Analysis(DisabledMessage, None)
      else
        var request := ChatRequest(ChatModel, SystemRole, TopicsText(topics));
        match completion
        case Ok(content) => Analysis(content, Some(request))
        case Err(e) => Analysis(FailurePrefix + e, Some(request))
    }

    /** create_report: the table with one row per topic in order, the chart embedded
        when a chart path was given and the file exists, and the analysis with every
        newline turned into `<br>`; a failing write raises. */
    method CreateReport(topics: seq<Topic>, analysis: string, chart: Option<string>, chartOnDisk: bool,
                        stamp: string, write: Outcome)
      returns (body: ReportBody, path: Result<string>)
      ensures body.topicsHtml == Table(topics)
      ensures '\n' !in body.analysisHtml && body.analysisHtml == ReplaceNewlines(analysis)
      ensures body.chartEmbedded <==> Truthy(chart) && chartOnDisk
      ensures path == if write.Pass? then Ok(ReportPath(stamp)) else Err(write.error)
    {
      var topicsHtml := "";
      var i := 0;
      while i < |topics|
        invariant 0 <= i <= |topics|
        invariant topicsHtml == Table(topics[..i])
      {
        TablePrefixStep(topics, i);
        topicsHtml := topicsHtml + Row(i + 1, topics[i]);
        i := i + 1;
      }
      assert topics[..i] == topics;
      var analysisHtml := ReplaceNewlines(analysis);
      var embedded := Truthy(chart) && chartOnDisk;
      body := ReportBody(topicsHtml, embedded, analysisHtml);
      path := if write.Pass? then Ok(ReportPath(stamp)) else Err(write.error);
    }

    /** The message send_email hands to the mail client: greeting, text, the report file
        and, when there is one, the chart. */
    function MailContents(reportFile: string, chart: Option<string>): (contents: seq<string>)
      ensures |contents| == if Truthy(chart) then 4 else 3
      ensures contents[..3] == [Greeting, MailText, reportFile]
      ensures Truthy(chart) ==> contents[3] == chart.value
    {
      [Greeting, MailText, reportFile] + (if Truthy(chart) then [chart.value] else [])
    }

    /** send_email: skips (False, no mail calls) unless configured; otherwise connects,
        sends one message to all recipients and closes, returning True only when all
        three succeed. A failed send is not followed by a close. */
    function SendEmail(reportFile: string, chart: Option<string>, answer: MailAnswer): (d: Delivery)
      ensures !EmailConfigured(emailUser, emailPassword, emailRecipients) ==> d == Delivery(false, [])
      ensures d.sent <==> EmailConfigured(emailUser, emailPassword, emailRecipients) && answer.Delivered?
      ensures EmailConfigured(emailUser, emailPassword, emailRecipients) ==>
        |d.smtp| >= 1 && d.smtp[0] == Connect(emailUser.value, emailPassword.value, emailHost)
      ensures forall c :: c in d.smtp && c.Send? ==> c == Send(emailRecipients, MailContents(reportFile, chart))
      ensures Close in d.smtp <==>
        EmailConfigured(emailUser, emailPassword, emailRecipients) && (answer.Delivered? || answer.CloseFails?)
      ensures EmailConfigured(emailUser, emailPassword, emailRecipients) ==>
        d.smtp == [Connect(emailUser.value, emailPassword.value, emailHost)]
          + (if answer.ConnectFails? then [] else [Send(emailRecipients, MailContents(reportFile, chart))])
          + (if answer.Delivered? || answer.CloseFails? then [Close] else [])
    {
      if !EmailConfigured(emailUser, emailPassword, emailRecipients) then Delivery(false, [])
      else
        var connect := Connect(emailUser.value, emailPassword.value, emailHost);
        var send := Send(emailRecipients, MailContents(reportFile, chart));
        match answer
        case ConnectFails(_) => Delivery(false, [connect])
        case SendFails(_) => Delivery(false, [connect, send])
        case CloseFails(_) => Delivery(false, [connect, send, Close])
        case Delivered => Delivery(true, [connect, send, Close])
    }

    /** Whatever the mail client answers, a configured send_email makes its calls as one
        ordered session: connect, at most one send, and a close only after the send. */
    lemma SendEmailIsOneSession(reportFile: string, chart: Option<string>, answer: MailAnswer)
      requires EmailConfigured(emailUser, emailPassword, emailRecipients)
      ensures MailSession(SendEmail(reportFile, chart, answer).smtp)
    {
    }

    /** run: fetch, and stop if nothing was fetched; otherwise save, visualize, analyze,
        create the report and send it, each once and in that order, handing the chart
        path (possibly None) and the analysis text (possibly a fallback) on unchanged.
        Only an exception a stage does not catch ends the run early. */
    method Run(world: World) returns (result: RunResult, calls: seq<Call>)
      ensures var topics := FetchTopics(world.response);
        var visualization := GenerateVisualization(topics, world.chartStamp, world.chartRender);
        && (result.Aborted? <==> topics == [])
        && (result.Done? <==>
              topics != [] && world.saveWrite.Pass? && visualization.path.Ok? && world.reportWrite.Pass?)
        && (result.Crashed? ==> result.stage in {Persisting, Visualizing, Rendering})
        && (result.Crashed? && result.stage == Persisting <==> topics != [] && world.saveWrite.Fail?)
        && (result.Crashed? && result.stage == Visualizing <==>
              topics != [] && world.saveWrite.Pass? && visualization.path.Err?)
        && (result.Crashed? && result.stage == Rendering <==>
              topics != [] && world.saveWrite.Pass? && visualization.path.Ok? && world.reportWrite.Fail?)
      ensures var topics := FetchTopics(world.response);
        var chart := GenerateVisualization(topics, world.chartStamp, world.chartRender).path;
        var analysis := AnalyzeWithAi(topics, world.completion).text;
        && (result.Aborted? ==> calls == [GetBaiduHotCall])
        && (result.Crashed? && result.stage == Persisting ==>
              calls == [GetBaiduHotCall, SaveHotTopicsCall(topics)])
        && (result.Crashed? && result.stage == Visualizing ==>
              calls == [GetBaiduHotCall, SaveHotTopicsCall(topics), GenerateVisualizationCall(topics)])
        && (result.Crashed? && result.stage == Rendering ==>
              chart.Ok? &&
              calls == [GetBaiduHotCall, SaveHotTopicsCall(topics), GenerateVisualizationCall(topics),
                        AnalyzeWithAiCall(topics), CreateReportCall(topics, analysis, chart.value)])
      ensures result.Done? ==>
        var topics := FetchTopics(world.response);
        && result.chart == GenerateVisualization(topics, world.chartStamp, world.chartRender).path.value
        && result.analysis == AnalyzeWithAi(topics, world.completion).text
        && result.reportFile == ReportPath(world.reportStamp)
        && result.delivered == SendEmail(result.reportFile, result.chart, world.mail).sent
        && calls == [GetBaiduHotCall, SaveHotTopicsCall(topics), GenerateVisualizationCall(topics),
                     AnalyzeWithAiCall(topics), CreateReportCall(topics, result.analysis, result.chart),
                     SendEmailCall(result.reportFile, result.chart)]
    {
      var topics := GetBaiduHot(world.response);
      if topics == [] {
        return Aborted, [GetBaiduHotCall];
      }

      var saved := SaveHotTopics(topics, world.saveStamp, world.saveWrite);
      if saved.path.Err? {
        return Crashed(Persisting, saved.path.error), [GetBaiduHotCall, SaveHotTopicsCall(topics)];
      }

      var visualization := GenerateVisualization(topics, world.chartStamp, world.chartRender);
      if visualization.path.Err? {
        return Crashed(Visualizing, visualization.path.error),
          [GetBaiduHotCall, SaveHotTopicsCall(topics), GenerateVisualizationCall(topics)];
      }
      var chartPath := visualization.path.value;

      var analysis := AnalyzeWithAi(topics, world.completion).text;

      var body, reportFile := CreateReport(topics, analysis, chartPath, world.chartOnDisk,
                                           world.reportStamp, world.reportWrite);
      if reportFile.Err? {
        return Crashed(Rendering, reportFile.error),
          [GetBaiduHotCall, SaveHotTopicsCall(topics), GenerateVisualizationCall(topics),
           AnalyzeWithAiCall(topics), CreateReportCall(topics, analysis, chartPath)];
      }

      var delivery := SendEmail(reportFile.value, chartPath, world.mail);
      result := Done(chartPath, analysis, reportFile.value, delivery.sent);
      calls := [GetBaiduHotCall, SaveHotTopicsCall(topics), GenerateVisualizationCall(topics),
                AnalyzeWithAiCall(topics), CreateReportCall(topics, analysis, chartPath),
                SendEmailCall(reportFile.value, chartPath)];
    }
  }
}
