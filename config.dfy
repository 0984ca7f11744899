/** The Telegraf configuration document written by `writeNewConfig`: a global `[agent]`
    table, one `[[inputs.tail]]` input with its `[inputs.tail.tags]` table, and one
    `[[outputs.opensearch]]` output. The document is a sequence of lines, one per
    `writer.write` call; `Render` gives the exact text of each line (without its
    terminating newline). */
module TelegrafConfig {
  import opened Text
  import opened Grok

  /** The identity and destination values the source keeps in static fields. */
  datatype Settings = Settings(
    logFile: string,
    opensearchHost: string,
    vmId: string,
    mciGroupId: string,
    indexName: string,
    templateName: string,
    username: string,
    password: string)

  /** The built-in values of the source (no command-line arguments given). */
  const DEFAULT_SETTINGS := Settings(
    "/var/log/syslog", "http://192.168.110.14:9200", "my-vm-test-1", "MCI-1",
    "telegraf-test", "telegraf-*", "", "")

  /** Credentials are written only when both are non-empty: one of them alone counts
      for nothing. */
  predicate HasCredentials(s: Settings): (both: bool)
    ensures s.username == "" ==> !both
    ensures s.password == "" ==> !both
    ensures |s.username| > 0 && |s.password| > 0 ==> both
  {
    s.username != "" && s.password != ""
  }

  /** The keys the document assigns, one per `key = value` line. */
  datatype Key =
    | Interval | RoundInterval | MetricBatchSize | MetricBufferLimit | CollectionJitter
    | FlushInterval | FlushJitter | Precision | Debug | Quiet | Logfile
    | Files | FromBeginning | WatchMethod | DataFormat | GrokPatterns | VmId | MciGroupId
    | Urls | IndexName | TemplateName | Username | Password

  function KeyName(k: Key): string
  {
    match k
    case Interval => "interval"
    case RoundInterval => "round_interval"
    case MetricBatchSize => "metric_batch_size"
    case MetricBufferLimit => "metric_buffer_limit"
    case CollectionJitter => "collection_jitter"
    case FlushInterval => "flush_interval"
    case FlushJitter => "flush_jitter"
    case Precision => "precision"
    case Debug => "debug"
    case Quiet => "quiet"
    case Logfile => "logfile"
    case Files => "files"
    case FromBeginning => "from_beginning"
    case WatchMethod => "watch_method"
    case DataFormat => "data_format"
    case GrokPatterns => "grok_patterns"
    case VmId => "vm_id"
    case MciGroupId => "mci_group_id"
    case Urls => "urls"
    case IndexName => "index_name"
    case TemplateName => "template_name"
    case Username => "username"
    case Password => "password"
  }

  /** A value as the document writes it: a quoted string, a one-element list holding a
      quoted string, or a bare literal (number or boolean). Nothing is escaped. */
  datatype Value = Quoted(text: string) | QuotedList(text: string) | Bare(text: string)

  /** The five comment lines of the document. */
  datatype Remark = GlobalAgentRemark | TailInputRemark | DataFormatRemark | TagsRemark | OutputRemark

  function RemarkText(r: Remark): string
  {
    match r
    case GlobalAgentRemark => "Global Agent Configuration"
    case TailInputRemark => "Input Plugin: Tail (to read syslog from a file)"
    case DataFormatRemark => "Data format to parse syslog entries"
    case TagsRemark => "Add these fields if you want to tag the logs"
    case OutputRemark => "Output Plugin: Elasticsearch (for OpenSearch)"
  }

  /** The four tables of the document. */
  datatype TableName = Agent | InputsTail | InputsTailTags | OutputsOpensearch

  function TableText(t: TableName): string
  {
    match t
    case Agent => "agent"
    case InputsTail => "inputs.tail"
    case InputsTailTags => "inputs.tail.tags"
    case OutputsOpensearch => "outputs.opensearch"
  }

  /** One line of the document; `indent` counts leading spaces. A table line opens a
      table (`[name]`) or an element of an array of tables (`[[name]]`). */
  datatype Line =
    | Comment(indent: nat, remark: Remark)
    | Blank
    | Table(indent: nat, name: TableName, isArray: bool)
    | Setting(indent: nat, key: Key, value: Value)

  function Spaces(n: nat): string
  {
    seq(n, _ => ' ')
  }

  function RenderValue(v: Value): string
  {
    match v
    case Quoted(t) => "\"" + t + "\""
    case QuotedList(t) => "[\"" + t + "\"]"
    case Bare(t) => t
  }

  /** The exact text of a line. Only the blank line is empty; a table header's first
      character after its indent is `[`, a comment's is `#`, a setting's a letter of its key. */
  function Render(l: Line): (text: string)
    ensures text == "" <==> l.Blank?
    ensures l.Table? ==> |text| > l.indent && text[..l.indent] == Spaces(l.indent) && text[l.indent] == '['
    ensures l.Comment? ==> |text| > l.indent && text[..l.indent] == Spaces(l.indent) && text[l.indent] == '#'
    ensures l.Setting? ==> |text| > l.indent && text[..l.indent] == Spaces(l.indent) && 'a' <= text[l.indent] <= 'z'
  {
    match l
    case Comment(n, r) => Spaces(n) + "# " + RemarkText(r)
    case Blank => ""
    case Table(n, t, isArray) =>
      Spaces(n) + (if isArray then "[[" + TableText(t) + "]]" else "[" + TableText(t) + "]")
    case Setting(n, k, v) => Spaces(n) + KeyName(k) + " = " + RenderValue(v)
  }

  /** The text of a document, line by line. */
  function RenderAll(doc: seq<Line>): (text: seq<string>)
    ensures |text| == |doc|
    ensures forall i :: 0 <= i < |doc| ==> text[i] == Render(doc[i])
  {
    seq(|doc|, i requires 0 <= i < |doc| => Render(doc[i]))
  }

  const AGENT_TABLE := Table(0, Agent, false)
  const INPUT_TABLE := Table(0, InputsTail, true)
  const TAGS_TABLE := Table(2, InputsTailTags, false)
  const OUTPUT_TABLE := Table(0, OutputsOpensearch, true)

  /** The table each key belongs to. */
  function Home(k: Key): Line
  {
    match k
    case Files | FromBeginning | WatchMethod | DataFormat | GrokPatterns => INPUT_TABLE
    case VmId | MciGroupId => TAGS_TABLE
    case Urls | IndexName | TemplateName | Username | Password => OUTPUT_TABLE
    case _ => AGENT_TABLE
  }

  /** The agent tunables: fixed, whatever the settings. */
  function AgentSection(): (sec: seq<Line>)
    ensures |sec| == 14 && sec[1] == AGENT_TABLE && sec[13] == Blank
    ensures forall j :: 0 <= j < |sec| && sec[j].Setting? ==> Home(sec[j].key) == AGENT_TABLE
  {
    [ Comment(0, GlobalAgentRemark),
      AGENT_TABLE,
      Setting(2, Interval, Quoted("1s")),
      Setting(2, RoundInterval, Bare("true")),
      Setting(2, MetricBatchSize, Bare("1000")),
      Setting(2, MetricBufferLimit, Bare("10000")),
      Setting(2, CollectionJitter, Quoted("0s")),
      Setting(2, FlushInterval, Quoted("1s")),
      Setting(2, FlushJitter, Quoted("0s")),
      Setting(2, Precision, Quoted("")),
      Setting(2, Debug, Bare("true")),
      Setting(2, Quiet, Bare("false")),
      Setting(2, Logfile, Quoted("/var/log/telegraf/telegraf.log")),
      Blank ]
  }

  /** The tail input: one watched file, the grok pattern, the two tags (vm first). */
  function InputSection(logFile: string, pattern: string, vmId: string, mciGroupId: string): (sec: seq<Line>)
    ensures |sec| == 15 && sec[1] == INPUT_TABLE && sec[11] == TAGS_TABLE && sec[14] == Blank
    ensures forall j :: 0 <= j < 11 && sec[j].Setting? ==> Home(sec[j].key) == INPUT_TABLE
    ensures forall j :: 11 < j < |sec| && sec[j].Setting? ==> Home(sec[j].key) == TAGS_TABLE
    ensures sec[2] == Setting(2, Files, QuotedList(logFile)) && sec[8] == Setting(2, GrokPatterns, QuotedList(pattern))
    ensures sec[12] == Setting(4, VmId, Quoted(vmId)) && sec[13] == Setting(4, MciGroupId, Quoted(mciGroupId))
  {
    [ Comment(0, TailInputRemark),
      INPUT_TABLE,
      Setting(2, Files, QuotedList(logFile)),
      Setting(2, FromBeginning, Bare("false")),
      Setting(2, WatchMethod, Quoted("inotify")),
      Blank,
      Comment(2, DataFormatRemark),
      Setting(2, DataFormat, Quoted("grok")),
      Setting(2, GrokPatterns, QuotedList(pattern)),
      Blank,
      Comment(2, TagsRemark),
      TAGS_TABLE,
      Setting(4, VmId, Quoted(vmId)),
      Setting(4, MciGroupId, Quoted(mciGroupId)),
      Blank ]
  }

  /** The two credential lines, or none. */
  function Credentials(s: Settings): (lines: seq<Line>)
    ensures |lines| == 0 || |lines| == 2
    ensures lines != [] <==> s.username != "" && s.password != ""
    ensures lines != [] ==> lines[0].Setting? && lines[0].key == Username && lines[0].value == Quoted(s.username)
    ensures lines != [] ==> lines[1].Setting? && lines[1].key == Password && lines[1].value == Quoted(s.password)
  {
    if HasCredentials(s) then
      [Setting(2, Username, Quoted(s.username)), Setting(2, Password, Quoted(s.password))]
    else []
  }

  /** The OpenSearch output: destination, index, template, then the optional credentials. */
  function OutputSection(s: Settings): (sec: seq<Line>)
    ensures |sec| == if HasCredentials(s) then 8 else 6
    ensures sec[1] == OUTPUT_TABLE && sec[|sec| - 1] == Blank
    ensures forall j :: 1 < j < |sec| && sec[j].Setting? ==> Home(sec[j].key) == OUTPUT_TABLE
    ensures sec[2] == Setting(2, Urls, QuotedList(s.opensearchHost))
    ensures sec[4] == Setting(2, TemplateName, Quoted(s.templateName))
    ensures HasCredentials(s) ==> sec[5] == Setting(2, Username, Quoted(s.username)) && sec[6] == Setting(2, Password, Quoted(s.password))
    ensures !HasCredentials(s) ==> sec[5] == Blank
  {
    [ Comment(0, OutputRemark),
      OUTPUT_TABLE,
      Setting(2, Urls, QuotedList(s.opensearchHost)),
      Setting(2, IndexName, Quoted(s.indexName)),
      Setting(2, TemplateName, Quoted(s.templateName)) ]
    + Credentials(s) + [Blank]
  }

  /** The whole document for the given settings and grok pattern. */
  function ConfigLines(s: Settings, pattern: string): (doc: seq<Line>)
    ensures |doc| == if HasCredentials(s) then 37 else 35
  {
    AgentSection() + InputSection(s.logFile, pattern, s.vmId, s.mciGroupId) + OutputSection(s)
  }

  /** `l` assigns key `k`. */
  predicate Assigns(l: Line, k: Key)
  {
    l.Setting? && l.key == k
  }

  /** The first line assigning `k`: where a reader of the file takes its value from. */
  function Find(doc: seq<Line>, k: Key): (r: Option<nat>)
    ensures r.Some? ==> r.value < |doc| && Assigns(doc[r.value], k)
    ensures r.Some? ==> forall j :: 0 <= j < r.value ==> !Assigns(doc[j], k)
    ensures r.None? ==> forall j :: 0 <= j < |doc| ==> !Assigns(doc[j], k)
  {
    if |doc| == 0 then None
    else if Assigns(doc[0], k) then Some(0)
    else
      match Find(doc[1..], k)
      case None => None
      case Some(i) => Some(i + 1)
  }

  /** The value a reader finds for `k`, if any line assigns it. */
  function Lookup(doc: seq<Line>, k: Key): Option<Value>
  {
    match Find(doc, k)
    case None => None
    case Some(i) => Some(doc[i].value)
  }

  /** The nearest table header at or before line `i`: the table line `i` belongs to. */
  function Header(doc: seq<Line>, i: nat): (r: Option<nat>)
    requires i < |doc|
    ensures r.Some? ==> r.value <= i && doc[r.value].Table?
    ensures r.Some? ==> forall m :: r.value < m <= i ==> !doc[m].Table?
    ensures r.None? ==> forall m :: 0 <= m <= i ==> !doc[m].Table?
    decreases i
  {
    if doc[i].Table? then Some(i)
    else if i == 0 then None
    else Header(doc, i - 1)
  }

  /** The line on which each key is written. */
  function Slot(k: Key): nat
  {
    match k
    case Interval => 2
    case RoundInterval => 3
    case MetricBatchSize => 4
    case MetricBufferLimit => 5
    case CollectionJitter => 6
    case FlushInterval => 7
    case FlushJitter => 8
    case Precision => 9
    case Debug => 10
    case Quiet => 11
    case Logfile => 12
    case Files => 16
    case FromBeginning => 17
    case WatchMethod => 18
    case DataFormat => 21
    case GrokPatterns => 22
    case VmId => 26
    case MciGroupId => 27
    case Urls => 31
    case IndexName => 32
    case TemplateName => 33
    case Username => 34
    case Password => 35
  }

  /** `k` is written: every key but the credentials always, those only in pairs. */
  predicate Written(s: Settings, k: Key)
  {
    (k != Username && k != Password) || HasCredentials(s)
  }

  /** What each key is meant to hold: the settings and pattern spliced in verbatim,
      fixed literals for the rest. */
  function Intended(s: Settings, pattern: string, k: Key): Value
  {
    match k
    case Interval => Quoted("1s")
    case RoundInterval => Bare("true")
    case MetricBatchSize => Bare("1000")
    case MetricBufferLimit => Bare("10000")
    case CollectionJitter => Quoted("0s")
    case FlushInterval => Quoted("1s")
    case FlushJitter => Quoted("0s")
    case Precision => Quoted("")
    case Debug => Bare("true")
    case Quiet => Bare("false")
    case Logfile => Quoted("/var/log/telegraf/telegraf.log")
    case Files => QuotedList(s.logFile)
    case FromBeginning => Bare("false")
    case WatchMethod => Quoted("inotify")
    case DataFormat => Quoted("grok")
    case GrokPatterns => QuotedList(pattern)
    case VmId => Quoted(s.vmId)
    case MciGroupId => Quoted(s.mciGroupId)
    case Urls => QuotedList(s.opensearchHost)
    case IndexName => Quoted(s.indexName)
    case TemplateName => Quoted(s.templateName)
    case Username => Quoted(s.username)
    case Password => Quoted(s.password)
  }

  /** The header of line `i` is `h` when `h` is a table line and none lies in between. */
  lemma {:induction false} HeaderIs(doc: seq<Line>, i: nat, h: nat)
    requires h <= i < |doc| && doc[h].Table?
    requires forall m :: h < m <= i ==> !doc[m].Table?
    ensures Header(doc, i) == Some(h)
    decreases i
  {
    if i > h {
      HeaderIs(doc, i - 1, h);
    }
  }

  /** Where `Find` lands in `a + b`: in `a` if `a` assigns the key, else shifted into `b`. */
  function Shifted(r: Option<nat>, n: nat): Option<nat>
  {
    match r
    case None => None
    case Some(i) => Some(n + i)
  }

  /** A reader scans lines in order: in `a + b` it finds the first assignment of `a`, or
      failing that the first of `b`, `|a|` lines further on. */
  lemma {:induction false} FindConcat(a: seq<Line>, b: seq<Line>, k: Key)
    ensures Find(a + b, k) == if Find(a, k).Some? then Find(a, k) else Shifted(Find(b, k), |a|)
  {
    var r := Find(a + b, k);
    match Find(a, k)
    case Some(i) =>
      assert Assigns((a + b)[i], k);
      assert forall j :: 0 <= j < i ==> (a + b)[j] == a[j];
    case None =>
      assert forall j :: 0 <= j < |a| ==> (a + b)[j] == a[j];
      match Find(b, k)
      case Some(i) =>
        assert Assigns((a + b)[|a| + i], k);
        assert forall j :: |a| <= j < |a| + i ==> (a + b)[j] == b[j - |a|];
      case None =>
        assert forall j :: |a| <= j < |a| + |b| ==> (a + b)[j] == b[j - |a|];
  }

  /** The same for the value read: `a`'s if it has one, else `b`'s. */
  lemma {:induction false} LookupConcat(a: seq<Line>, b: seq<Line>, k: Key)
    ensures Lookup(a + b, k) == if Lookup(a, k).Some? then Lookup(a, k) else Lookup(b, k)
  {
    FindConcat(a, b, k);
    match Find(a, k)
    case Some(i) =>
      assert (a + b)[i] == a[i];
    case None =>
      match Find(b, k)
      case Some(i) =>
        assert (a + b)[|a| + i] == b[i];
      case None =>
  }

  /** The agent section: each assignment at its key's slot, holding its intended value;
      its only table header is `[agent]`, second line. */
  lemma AgentLayout(s: Settings, pattern: string)
    ensures var sec := AgentSection();
      forall j :: 0 <= j < |sec| ==>
        && (sec[j].Setting? ==> Slot(sec[j].key) == j && sec[j].value == Intended(s, pattern, sec[j].key))
        && (sec[j].Table? <==> j == 1)
  {
  }

  /** A key whose slot lies in the agent section is assigned on that line. */
  lemma AgentHas(k: Key)
    ensures Slot(k) < 14 ==> Slot(k) < |AgentSection()| && Assigns(AgentSection()[Slot(k)], k)
  {
  }

  /** The agent section assigns exactly the keys whose slot lies in it, each once. */
  lemma AgentFind(s: Settings, pattern: string, k: Key)
    ensures Find(AgentSection(), k) == if Slot(k) < 14 then Some(Slot(k)) else None
    ensures Lookup(AgentSection(), k) == if Slot(k) < 14 then Some(Intended(s, pattern, k)) else None
  {
    AgentLayout(s, pattern);
    AgentHas(k);
  }

  /** The input section, lines 14 to 28 of the document. */
  lemma InputLayout(s: Settings, pattern: string)
    ensures var sec := InputSection(s.logFile, pattern, s.vmId, s.mciGroupId);
      forall j :: 0 <= j < |sec| ==>
        && (sec[j].Setting? ==> Slot(sec[j].key) == 14 + j && sec[j].value == Intended(s, pattern, sec[j].key))
        && (sec[j].Table? <==> j == 1 || j == 11)
  {
  }

  /** A key whose slot lies in the input section is assigned on that line. */
  lemma InputHas(s: Settings, pattern: string, k: Key)
    ensures var sec := InputSection(s.logFile, pattern, s.vmId, s.mciGroupId);
      14 <= Slot(k) < 29 ==> Slot(k) - 14 < |sec| && Assigns(sec[Slot(k) - 14], k)
  {
  }

  lemma InputFind(s: Settings, pattern: string, k: Key)
    ensures var sec := InputSection(s.logFile, pattern, s.vmId, s.mciGroupId);
      && Find(sec, k) == (if 14 <= Slot(k) < 29 then Some(Slot(k) - 14) else None)
      && Lookup(sec, k) == if 14 <= Slot(k) < 29 then Some(Intended(s, pattern, k)) else None
  {
    InputLayout(s, pattern);
    InputHas(s, pattern, k);
  }

  /** The output section, from line 29 on; the credential slots only when written. */
  lemma OutputLayout(s: Settings, pattern: string)
    ensures var sec := OutputSection(s);
      forall j :: 0 <= j < |sec| ==>
        && (sec[j].Setting? ==> Slot(sec[j].key) == 29 + j && sec[j].value == Intended(s, pattern, sec[j].key)
                                && Written(s, sec[j].key))
        && (sec[j].Table? <==> j == 1)
  {
  }

  /** A written key whose slot lies in the output section is assigned on that line. */
  lemma OutputHas(s: Settings, k: Key)
    ensures 29 <= Slot(k) && Written(s, k) ==> Slot(k) - 29 < |OutputSection(s)| && Assigns(OutputSection(s)[Slot(k) - 29], k)
  {
  }

  lemma OutputFind(s: Settings, pattern: string, k: Key)
    ensures Find(OutputSection(s), k) == if 29 <= Slot(k) && Written(s, k) then Some(Slot(k) - 29) else None
    ensures Lookup(OutputSection(s), k) == if 29 <= Slot(k) && Written(s, k) then Some(Intended(s, pattern, k)) else None
  {
    OutputLayout(s, pattern);
    OutputHas(s, k);
  }

  /** Reading three consecutive parts: the first part that assigns the key decides. */
  lemma {:induction false} FindAcross(a: seq<Line>, b: seq<Line>, c: seq<Line>, k: Key)
    ensures Find(a + b + c, k) ==
      if Find(a, k).Some? then Find(a, k)
      else if Find(b, k).Some? then Shifted(Find(b, k), |a|)
      else Shifted(Find(c, k), |a| + |b|)
    ensures Lookup(a + b + c, k) ==
      if Lookup(a, k).Some? then Lookup(a, k) else if Lookup(b, k).Some? then Lookup(b, k) else Lookup(c, k)
  {
    FindConcat(a, b, k);
    FindConcat(a + b, c, k);
    LookupConcat(a, b, k);
    LookupConcat(a + b, c, k);
  }

  /** Only the credential keys can go unwritten, and their slots come last. */
  lemma WrittenBeforeOutput(s: Settings, k: Key)
    ensures Slot(k) < 34 ==> Written(s, k)
  {
  }

  /** Three parts of 14, 15 and any number of lines, where a key with slot `n` is
      assigned in the part its slot falls in (in the last only if `w`), at that slot. */
  lemma {:induction false} FindInParts(a: seq<Line>, b: seq<Line>, c: seq<Line>, k: Key, n: nat, w: bool)
    requires |a| == 14 && |b| == 15 && (n < 34 ==> w)
    requires Find(a, k) == if n < 14 then Some(n) else None
    requires Find(b, k) == if 14 <= n < 29 then Some(n - 14) else None
    requires Find(c, k) == if 29 <= n && w then Some(n - 29) else None
    ensures Find(a + b + c, k) == if w then Some(n) else None
  {
    FindAcross(a, b, c, k);
  }

  /** The same, for the values found. */
  lemma {:induction false} LookupInParts(a: seq<Line>, b: seq<Line>, c: seq<Line>, k: Key, n: nat, w: bool, v: Value)
    requires n < 34 ==> w
    requires Lookup(a, k) == if n < 14 then Some(v) else None
    requires Lookup(b, k) == if 14 <= n < 29 then Some(v) else None
    requires Lookup(c, k) == if 29 <= n && w then Some(v) else None
    ensures Lookup(a + b + c, k) == if w then Some(v) else None
  {
    FindAcross(a, b, c, k);
  }

  /** A reader finds each written key at its slot, and finds nothing for a key not written. */
  lemma {:induction false} FindAtSlot(s: Settings, pattern: string, k: Key)
    ensures Find(ConfigLines(s, pattern), k) == if Written(s, k) then Some(Slot(k)) else None
  {
    AgentFind(s, pattern, k);
    InputFind(s, pattern, k);
    OutputFind(s, pattern, k);
    WrittenBeforeOutput(s, k);
    FindInParts(AgentSection(), InputSection(s.logFile, pattern, s.vmId, s.mciGroupId), OutputSection(s), k, Slot(k), Written(s, k));
  }

  /** A reader of the document finds, for every key, its intended value if the key is
      written and nothing otherwise. */
  lemma {:induction false} LookupIntended(s: Settings, pattern: string, k: Key)
    ensures Lookup(ConfigLines(s, pattern), k) == if Written(s, k) then Some(Intended(s, pattern, k)) else None
  {
    AgentFind(s, pattern, k);
    InputFind(s, pattern, k);
    OutputFind(s, pattern, k);
    WrittenBeforeOutput(s, k);
    LookupInParts(AgentSection(), InputSection(s.logFile, pattern, s.vmId, s.mciGroupId), OutputSection(s), k,
                  Slot(k), Written(s, k), Intended(s, pattern, k));
  }

  /** Each of the four tables is opened exactly once, in the order agent, input, tags,
      output; no other line is a table header. */
  lemma TablesInOrder(s: Settings, pattern: string)
    ensures var doc := ConfigLines(s, pattern);
      && doc[1] == AGENT_TABLE && doc[15] == INPUT_TABLE && doc[25] == TAGS_TABLE && doc[30] == OUTPUT_TABLE
      && forall j :: 0 <= j < |doc| ==> (doc[j].Table? <==> j == 1 || j == 15 || j == 25 || j == 30)
  {
  }

  /** Putting the three parts together keeps every assignment at its slot. */
  lemma {:induction false} SlotsInParts(a: seq<Line>, b: seq<Line>, c: seq<Line>)
    requires |a| == 14 && |b| == 15
    requires forall j :: 0 <= j < |a| && a[j].Setting? ==> Slot(a[j].key) == j
    requires forall j :: 0 <= j < |b| && b[j].Setting? ==> Slot(b[j].key) == 14 + j
    requires forall j :: 0 <= j < |c| && c[j].Setting? ==> Slot(c[j].key) == 29 + j
    ensures forall j :: 0 <= j < |a + b + c| && (a + b + c)[j].Setting? ==> Slot((a + b + c)[j].key) == j
  {
    forall j | 0 <= j < |a + b + c| && (a + b + c)[j].Setting?
      ensures Slot((a + b + c)[j].key) == j
    {
      if j < 14 {
        assert (a + b + c)[j] == a[j];
      } else if j < 29 {
        assert (a + b + c)[j] == b[j - 14];
      } else {
        assert (a + b + c)[j] == c[j - 29];
      }
    }
  }

  /** Every key is assigned on exactly one line, its slot, except that the two credential
      keys are assigned only when both credentials are non-empty. */
  lemma {:induction false} KeysAssignedOnce(s: Settings, pattern: string, k: Key)
    ensures var doc := ConfigLines(s, pattern);
      && (Written(s, k) ==> Slot(k) < |doc|)
      && forall j :: 0 <= j < |doc| ==> (Assigns(doc[j], k) <==> j == Slot(k) && Written(s, k))
  {
    AgentLayout(s, pattern);
    InputLayout(s, pattern);
    OutputLayout(s, pattern);
    SlotsInParts(AgentSection(), InputSection(s.logFile, pattern, s.vmId, s.mciGroupId), OutputSection(s));
    FindAtSlot(s, pattern, k);
  }

  /** The table each key's slot falls under is the key's home table. */
  lemma HomeBySlot(k: Key)
    ensures Home(k) == if Slot(k) < 14 then AGENT_TABLE else if Slot(k) < 25 then INPUT_TABLE
                       else if Slot(k) < 29 then TAGS_TABLE else OUTPUT_TABLE
  {
  }

  /** Every written key lands in its own table: the nearest header above its line is the
      table `Home` gives for it. */
  lemma {:induction false} KeyInItsTable(s: Settings, pattern: string, k: Key)
    requires Written(s, k)
    ensures var doc := ConfigLines(s, pattern);
      Slot(k) < |doc| && Header(doc, Slot(k)).Some? && doc[Header(doc, Slot(k)).value] == Home(k)
  {
    var doc := ConfigLines(s, pattern);
    KeysAssignedOnce(s, pattern, k);
    TablesInOrder(s, pattern);
    HomeBySlot(k);
    assert Slot(k) != 1 && Slot(k) != 15 && Slot(k) != 25 && Slot(k) != 30 by {
      assert Assigns(doc[Slot(k)], k);
    }
    var h := if Slot(k) < 15 then 1 else if Slot(k) < 25 then 15 else if Slot(k) < 30 then 25 else 30;
    HeaderIs(doc, Slot(k), h);
  }

  /** Both credentials or neither: a reader finds a username exactly when it finds a
      password (and, by `LookupIntended`, exactly when both settings are non-empty). */
  lemma CredentialsBothOrNeither(s: Settings, pattern: string)
    ensures Lookup(ConfigLines(s, pattern), Username).Some? == Lookup(ConfigLines(s, pattern), Password).Some?
  {
    LookupIntended(s, pattern, Username);
    LookupIntended(s, pattern, Password);
  }

  /** The document ends with a blank line, credentials or not. */
  lemma EndsWithBlank(s: Settings, pattern: string)
    ensures ConfigLines(s, pattern)[|ConfigLines(s, pattern)| - 1] == Blank
  {
  }

  /** Equal documents agree on every key: whether it is written, and what it holds. */
  lemma {:induction false} SameDocumentSameValue(s1: Settings, p1: string, s2: Settings, p2: string, k: Key)
    requires ConfigLines(s1, p1) == ConfigLines(s2, p2)
    ensures Written(s1, k) <==> Written(s2, k)
    ensures Written(s1, k) ==> Intended(s1, p1, k) == Intended(s2, p2, k)
  {
    LookupIntended(s1, p1, k);
    LookupIntended(s2, p2, k);
  }

  /** Equal documents were written with the same pattern and input values. */
  lemma {:induction false} SameDocumentSameInput(s1: Settings, p1: string, s2: Settings, p2: string)
    requires ConfigLines(s1, p1) == ConfigLines(s2, p2)
    ensures p1 == p2 && s1.logFile == s2.logFile && s1.vmId == s2.vmId && s1.mciGroupId == s2.mciGroupId
  {
    SameDocumentSameValue(s1, p1, s2, p2, Files);
    SameDocumentSameValue(s1, p1, s2, p2, GrokPatterns);
    SameDocumentSameValue(s1, p1, s2, p2, VmId);
    SameDocumentSameValue(s1, p1, s2, p2, MciGroupId);
  }

  /** Equal documents were written with the same output values. */
  lemma {:induction false} SameDocumentSameOutput(s1: Settings, p1: string, s2: Settings, p2: string)
    requires ConfigLines(s1, p1) == ConfigLines(s2, p2)
    ensures s1.opensearchHost == s2.opensearchHost && s1.indexName == s2.indexName && s1.templateName == s2.templateName
  {
    SameDocumentSameValue(s1, p1, s2, p2, Urls);
    SameDocumentSameValue(s1, p1, s2, p2, IndexName);
    SameDocumentSameValue(s1, p1, s2, p2, TemplateName);
  }

  /** Equal documents carry the same credentials, or none. */
  lemma {:induction false} SameDocumentSameCredentials(s1: Settings, p1: string, s2: Settings, p2: string)
    requires ConfigLines(s1, p1) == ConfigLines(s2, p2)
    ensures HasCredentials(s1) <==> HasCredentials(s2)
    ensures HasCredentials(s1) ==> s1.username == s2.username && s1.password == s2.password
  {
    SameDocumentSameValue(s1, p1, s2, p2, Username);
    SameDocumentSameValue(s1, p1, s2, p2, Password);
  }

  /** The document determines what was put into it: equal documents come from the same
      pattern and the same settings, up to credentials that were not written. */
  lemma {:induction false} DocumentDeterminesInputs(s1: Settings, p1: string, s2: Settings, p2: string)
    requires ConfigLines(s1, p1) == ConfigLines(s2, p2)
    ensures p1 == p2
    ensures HasCredentials(s1) <==> HasCredentials(s2)
    ensures HasCredentials(s1) ==> s1 == s2
    ensures !HasCredentials(s1) ==> s1.(username := "", password := "") == s2.(username := "", password := "")
  {
    SameDocumentSameInput(s1, p1, s2, p2);
    SameDocumentSameOutput(s1, p1, s2, p2);
    SameDocumentSameCredentials(s1, p1, s2, p2);
  }

  /** Nothing is escaped: whatever text a quoted setting holds, a reader that strips the
      line's known prefix and closing quote gets it back, quotes and all. */
  lemma {:induction false} QuotedReadsBack(n: nat, k: Key, t: string)
    ensures Unwrap(Render(Setting(n, k, Quoted(t))), Spaces(n) + KeyName(k) + " = \"", "\"") == Some(t)
  {
    var head := Spaces(n) + KeyName(k) + " = ";
    assert Render(Setting(n, k, Quoted(t))) == (head + "\"") + t + "\"";
    UnwrapSpliced(head + "\"", t, "\"");
  }

  /** The same for a one-element list: strip the prefix up to `["` and the closing `"]`. */
  lemma {:induction false} QuotedListReadsBack(n: nat, k: Key, t: string)
    ensures Unwrap(Render(Setting(n, k, QuotedList(t))), Spaces(n) + KeyName(k) + " = [\"", "\"]") == Some(t)
  {
    var head := Spaces(n) + KeyName(k) + " = ";
    assert Render(Setting(n, k, QuotedList(t))) == (head + "[\"") + t + "\"]";
    UnwrapSpliced(head + "[\"", t, "\"]");
  }

  /** A quoted setting's text: indent, key, ` = "`, the value verbatim, `"`. */
  lemma {:induction false} QuotedText(n: nat, k: Key, t: string)
    ensures Render(Setting(n, k, Quoted(t))) == Spaces(n) + KeyName(k) + " = \"" + t + "\""
  {
    assert " = " + ("\"" + t + "\"") == " = \"" + t + "\"";
  }

  /** A one-element list setting's text: indent, key, ` = ["`, the value verbatim, `"]`. */
  lemma {:induction false} QuotedListText(n: nat, k: Key, t: string)
    ensures Render(Setting(n, k, QuotedList(t))) == Spaces(n) + KeyName(k) + " = [\"" + t + "\"]"
  {
    assert " = " + ("[\"" + t + "\"]") == " = [\"" + t + "\"]";
  }

  /** Line 16 as written: the log file inside `files = [".."]` (source line 105). */
  lemma {:induction false} FilesText(s: Settings, pattern: string)
    ensures RenderAll(ConfigLines(s, pattern))[16] == "  files = [\"" + s.logFile + "\"]"
  {
    assert ConfigLines(s, pattern)[16] == Setting(2, Files, QuotedList(s.logFile));
    QuotedListText(2, Files, s.logFile);
    assert Spaces(2) + KeyName(Files) == "  files";
  }

  /** Line 22 as written: the selected pattern inside `grok_patterns = [".."]` (source line 111). */
  lemma {:induction false} GrokPatternsText(s: Settings, pattern: string)
    ensures RenderAll(ConfigLines(s, pattern))[22] == "  grok_patterns = [\"" + pattern + "\"]"
  {
    assert ConfigLines(s, pattern)[22] == Setting(2, GrokPatterns, QuotedList(pattern));
    QuotedListText(2, GrokPatterns, pattern);
    assert Spaces(2) + KeyName(GrokPatterns) == "  grok_patterns";
  }

  /** Line 26 as written: the VM tag, first of the two tags (source line 115). */
  lemma {:induction false} VmIdText(s: Settings, pattern: string)
    ensures RenderAll(ConfigLines(s, pattern))[26] == "    vm_id = \"" + s.vmId + "\""
  {
    assert ConfigLines(s, pattern)[26] == Setting(4, VmId, Quoted(s.vmId));
    QuotedText(4, VmId, s.vmId);
    assert Spaces(4) + KeyName(VmId) == "    vm_id";
  }

  /** Line 27 as written: the group tag, right after the VM tag (source line 116). */
  lemma {:induction false} MciGroupIdText(s: Settings, pattern: string)
    ensures RenderAll(ConfigLines(s, pattern))[27] == "    mci_group_id = \"" + s.mciGroupId + "\""
  {
    assert ConfigLines(s, pattern)[27] == Setting(4, MciGroupId, Quoted(s.mciGroupId));
    QuotedText(4, MciGroupId, s.mciGroupId);
    assert Spaces(4) + KeyName(MciGroupId) == "    mci_group_id";
  }

  /** Line 31 as written: the OpenSearch URL inside `urls = [".."]` (source line 121). */
  lemma {:induction false} UrlsText(s: Settings, pattern: string)
    ensures RenderAll(ConfigLines(s, pattern))[31] == "  urls = [\"" + s.opensearchHost + "\"]"
  {
    assert ConfigLines(s, pattern)[31] == Setting(2, Urls, QuotedList(s.opensearchHost));
    QuotedListText(2, Urls, s.opensearchHost);
    assert Spaces(2) + KeyName(Urls) == "  urls";
  }

  /** Line 32 as written: the index name (source line 122). */
  lemma {:induction false} IndexNameText(s: Settings, pattern: string)
    ensures RenderAll(ConfigLines(s, pattern))[32] == "  index_name = \"" + s.indexName + "\""
  {
    assert ConfigLines(s, pattern)[32] == Setting(2, IndexName, Quoted(s.indexName));
    QuotedText(2, IndexName, s.indexName);
    assert Spaces(2) + KeyName(IndexName) == "  index_name";
  }

  /** Line 33 as written: the template name (source line 123). */
  lemma {:induction false} TemplateNameText(s: Settings, pattern: string)
    ensures RenderAll(ConfigLines(s, pattern))[33] == "  template_name = \"" + s.templateName + "\""
  {
    assert ConfigLines(s, pattern)[33] == Setting(2, TemplateName, Quoted(s.templateName));
    QuotedText(2, TemplateName, s.templateName);
    assert Spaces(2) + KeyName(TemplateName) == "  template_name";
  }

  /** Line 34 as written: the user name, when both credentials are set (source line 125). */
  lemma {:induction false} UsernameText(s: Settings, pattern: string)
    requires HasCredentials(s)
    ensures RenderAll(ConfigLines(s, pattern))[34] == "  username = \"" + s.username + "\""
  {
    assert ConfigLines(s, pattern)[34] == Setting(2, Username, Quoted(s.username));
    QuotedText(2, Username, s.username);
    assert Spaces(2) + KeyName(Username) == "  username";
  }

  /** Line 35 as written: the password, right after the user name (source line 126). */
  lemma {:induction false} PasswordText(s: Settings, pattern: string)
    requires HasCredentials(s)
    ensures RenderAll(ConfigLines(s, pattern))[35] == "  password = \"" + s.password + "\""
  {
    assert ConfigLines(s, pattern)[35] == Setting(2, Password, Quoted(s.password));
    QuotedText(2, Password, s.password);
    assert Spaces(2) + KeyName(Password) == "  password";
  }

  /** Line 1 as written: the `[agent]` header (source line 89). */
  lemma {:induction false} AgentTableText(s: Settings, pattern: string)
    ensures RenderAll(ConfigLines(s, pattern))[1] == "[agent]"
  {
    assert ConfigLines(s, pattern)[1] == Table(0, Agent, false);
    assert Spaces(0) == "";
  }

  /** Line 15 as written: the `[[inputs.tail]]` header (source line 104). */
  lemma {:induction false} InputTableText(s: Settings, pattern: string)
    ensures RenderAll(ConfigLines(s, pattern))[15] == "[[inputs.tail]]"
  {
    assert ConfigLines(s, pattern)[15] == Table(0, InputsTail, true);
    assert Spaces(0) == "";
  }

  /** Line 25 as written: the indented `[inputs.tail.tags]` header (source line 114). */
  lemma {:induction false} TagsTableText(s: Settings, pattern: string)
    ensures RenderAll(ConfigLines(s, pattern))[25] == "  [inputs.tail.tags]"
  {
    assert ConfigLines(s, pattern)[25] == Table(2, InputsTailTags, false);
    assert Spaces(2) == "  ";
  }

  /** Line 30 as written: the `[[outputs.opensearch]]` header (source line 120). */
  lemma {:induction false} OutputTableText(s: Settings, pattern: string)
    ensures RenderAll(ConfigLines(s, pattern))[30] == "[[outputs.opensearch]]"
  {
    var front := AgentSection() + InputSection(s.logFile, pattern, s.vmId, s.mciGroupId);
    assert ConfigLines(s, pattern) == front + OutputSection(s);
    assert ConfigLines(s, pattern)[30] == OutputSection(s)[1] == Table(0, OutputsOpensearch, true);
    assert Spaces(0) == "";
  }

  /** With the built-in settings on a JVM, which reports the OS name "Linux", the file
      gets the fallback pattern; it has no credentials and so 35 lines. */
  lemma {:induction false} DefaultDocumentOnLinux()
    ensures |ConfigLines(DEFAULT_SETTINGS, DetermineGrokPattern("Linux"))| == 35
    ensures Lookup(ConfigLines(DEFAULT_SETTINGS, DetermineGrokPattern("Linux")), GrokPatterns) == Some(QuotedList(FALLBACK_PATTERN))
  {
    LinuxNameFallback();
    LookupIntended(DEFAULT_SETTINGS, FALLBACK_PATTERN, GrokPatterns);
  }

  /** The writes from `# Global Agent Configuration` to the blank line after `logfile`. */
  method WriteAgentSection(before: seq<Line>) returns (written: seq<Line>)
    ensures written == before + AgentSection()
  {
    written := before;
    written := written + [Comment(0, GlobalAgentRemark)];
    written := written + [AGENT_TABLE];
    written := written + [Setting(2, Interval, Quoted("1s"))];
    written := written + [Setting(2, RoundInterval, Bare("true"))];
    written := written + [Setting(2, MetricBatchSize, Bare("1000"))];
    written := written + [Setting(2, MetricBufferLimit, Bare("10000"))];
    written := written + [Setting(2, CollectionJitter, Quoted("0s"))];
    written := written + [Setting(2, FlushInterval, Quoted("1s"))];
    written := written + [Setting(2, FlushJitter, Quoted("0s"))];
    written := written + [Setting(2, Precision, Quoted(""))];
    written := written + [Setting(2, Debug, Bare("true"))];
    written := written + [Setting(2, Quiet, Bare("false"))];
    written := written + [Setting(2, Logfile, Quoted("/var/log/telegraf/telegraf.log"))];
    written := written + [Blank];
  }

  /** The writes from `# Input Plugin` to the blank line after the tags. */
  method WriteInputSection(before: seq<Line>, logFile: string, grokPattern: string, vmId: string, mciGroupId: string)
    returns (written: seq<Line>)
    ensures written == before + InputSection(logFile, grokPattern, vmId, mciGroupId)
  {
    written := before;
    written := written + [Comment(0, TailInputRemark)];
    written := written + [INPUT_TABLE];
    written := written + [Setting(2, Files, QuotedList(logFile))];
    written := written + [Setting(2, FromBeginning, Bare("false"))];
    written := written + [Setting(2, WatchMethod, Quoted("inotify"))];
    written := written + [Blank];
    written := written + [Comment(2, DataFormatRemark)];
    written := written + [Setting(2, DataFormat, Quoted("grok"))];
    written := written + [Setting(2, GrokPatterns, QuotedList(grokPattern))];
    written := written + [Blank];
    written := written + [Comment(2, TagsRemark)];
    written := written + [TAGS_TABLE];
    written := written + [Setting(4, VmId, Quoted(vmId))];
    written := written + [Setting(4, MciGroupId, Quoted(mciGroupId))];
    written := written + [Blank];
  }

  /** The writes from `# Output Plugin` to the final blank line; the credential lines only
      when both are non-empty. */
  method WriteOutputSection(before: seq<Line>, s: Settings) returns (written: seq<Line>)
    ensures written == before + OutputSection(s)
  {
    written := before;
    written := written + [Comment(0, OutputRemark)];
    written := written + [OUTPUT_TABLE];
    written := written + [Setting(2, Urls, QuotedList(s.opensearchHost))];
    written := written + [Setting(2, IndexName, Quoted(s.indexName))];
    written := written + [Setting(2, TemplateName, Quoted(s.templateName))];
    if s.username != "" && s.password != "" {
      written := written + [Setting(2, Username, Quoted(s.username))];
      written := written + [Setting(2, Password, Quoted(s.password))];
    }
    written := written + [Blank];
  }

  /** `writeNewConfig`: choose the grok pattern for the reported OS name, then write the
      three sections in order. The result is the whole file, line by line. */
  method WriteNewConfig(s: Settings, osName: string) returns (written: seq<Line>)
    ensures written == ConfigLines(s, DetermineGrokPattern(osName))
  {
    var grokPattern := DetermineGrokPattern(osName);
    written := WriteAgentSection([]);
    written := WriteInputSection(written, s.logFile, grokPattern, s.vmId, s.mciGroupId);
    written := WriteOutputSection(written, s);
  }
}
