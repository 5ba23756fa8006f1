/** The texts of the topology ConfigMaps, for one node and for a pool, and line decoders for them. */
module TopologyText {
  import opened Basics

  const NEWLINE: char := '\n'

  // ---------------------------------------------------------------- numbers

  function Digit(d: nat): char
    requires d < 10
  {
    "0123456789"[d]
  }

  function Digits(n: nat): string {
    if n < 10 then [Digit(n)] else Digits(n / 10) + [Digit(n % 10)]
  }

  function Decimal(n: int): string {
    if n < 0 then "-" + Digits(-n) else Digits(n)
  }

  predicate IsDigit(c: char) { '0' <= c <= '9' }

  function DigitValue(c: char): nat
    requires IsDigit(c)
  {
    (c as int) - ('0' as int)
  }

  function ParseDigits(s: string): Option<nat> {
    if s == "" || !IsDigit(s[|s| - 1]) then None
    else if |s| == 1 then Some(DigitValue(s[0]))
    else match ParseDigits(s[..|s| - 1])
      case None => None
      case Some(n) => Some(10 * n + DigitValue(s[|s| - 1]))
  }

  function ParseDecimal(s: string): Option<int> {
    if s != "" && s[0] == '-' then
      match ParseDigits(s[1..])
      case None => None
      case Some(n) => Some(0 - n)
    else
      match ParseDigits(s)
      case None => None
      case Some(n) => Some(n)
  }

  lemma DigitIsDigit(d: nat)
    requires d < 10
    ensures IsDigit(Digit(d)) && DigitValue(Digit(d)) == d
  {
  }

  lemma {:induction false} DigitsParse(n: nat)
    ensures ParseDigits(Digits(n)) == Some(n)
    ensures Digits(n) != "" && forall c | c in Digits(n) :: IsDigit(c)
  {
    DigitIsDigit(n % 10);
    if n >= 10 {
      DigitsParse(n / 10);
      var s := Digits(n);
      assert s[..|s| - 1] == Digits(n / 10);
    } else {
      assert Digits(n) == [Digit(n)];
    }
  }

  lemma DecimalParse(n: int)
    ensures ParseDecimal(Decimal(n)) == Some(n)
    ensures forall c | c in Decimal(n) :: IsDigit(c) || c == '-'
  {
    DigitsParse(if n < 0 then -n else n);
    if n < 0 {
      assert Decimal(n)[1..] == Digits(-n);
    } else {
      assert Digits(n)[0] in Digits(n);
    }
  }

  // ---------------------------------------------------------------- lines

  predicate OneLine(s: string) { NEWLINE !in s }

  function Join(lines: seq<string>): string {
    if lines == [] then ""
    else if |lines| == 1 then lines[0]
    else lines[0] + [NEWLINE] + Join(lines[1..])
  }

  function Split(s: string): (lines: seq<string>)
    ensures lines != []
  {
    if s == "" then [""]
    else
      var rest := Split(s[1..]);
      if s[0] == NEWLINE then [""] + rest
      else [[s[0]] + rest[0]] + rest[1..]
  }

  lemma {:induction false} SplitLine(line: string, rest: string)
    requires OneLine(line)
    ensures Split(line) == [line]
    ensures Split(line + [NEWLINE] + rest) == [line] + Split(rest)
  {
    var s := line + [NEWLINE] + rest;
    if line == "" {
      assert s[1..] == rest;
    } else {
      assert line == [line[0]] + line[1..];
      SplitLine(line[1..], rest);
      assert s[1..] == line[1..] + [NEWLINE] + rest;
    }
  }

  lemma {:induction false} SplitJoin(lines: seq<string>)
    requires lines != [] && forall l | l in lines :: OneLine(l)
    ensures Split(Join(lines)) == lines
  {
    if |lines| == 1 {
      SplitLine(lines[0], "");
    } else {
      SplitJoin(lines[1..]);
      SplitLine(lines[0], Join(lines[1..]));
      assert lines == [lines[0]] + lines[1..];
    }
  }

  lemma {:induction false} JoinTwo(a: seq<string>, b: seq<string>)
    requires a != [] && b != []
    ensures Join(a + b) == Join(a) + [NEWLINE] + Join(b)
  {
    assert (a + b)[0] == a[0] && (a + b)[1..] == a[1..] + b;
    if |a| == 1 {
      assert a[1..] + b == b;
    } else {
      JoinTwo(a[1..], b);
    }
  }

  /** Joining a joined block is joining its lines. */
  lemma JoinNested(a: seq<string>, block: seq<string>, b: seq<string>)
    requires a != [] && block != [] && b != []
    ensures Join(a + [Join(block)] + b) == Join(a + block + b)
  {
    JoinTwo(a + [Join(block)], b);
    JoinTwo(a, [Join(block)]);
    JoinTwo(a + block, b);
    JoinTwo(a, block);
  }

  // ---------------------------------------------------------------- the topology text

  /** The fixed words of the text. */
  datatype Template = Template(
    memory: string, product: string, heading: string, id: string, tail: seq<string>, strategy: string)

  const ID := "    - id: "
  const STATUS := "      status:"
  const ALLOCATED := "        allocatedBy:"
  const NAMESPACE := "          namespace: \"\""
  const POD := "          pod: \"\""
  const CONTAINER := "          container: \"\""
  const USAGE := "        podGpuUsageStatus: {}"

  const TEMPLATE := Template(
    "gpuMemory: ", "gpuProduct: ", "gpus:", ID,
    [STATUS, ALLOCATED, NAMESPACE, POD, CONTAINER, USAGE],
    "migStrategy: ")

  function GpuId(node: string, index: nat): string {
    "GPU-" + node + "-" + Decimal(index)
  }

  function EntryLines(t: Template, node: string, index: nat): seq<string> {
    [t.id + GpuId(node, index)] + t.tail
  }

  function Entries(t: Template, node: string, count: nat): seq<string> {
    seq(count, i requires 0 <= i < count => Join(EntryLines(t, node, i)))
  }

  /** A negative count yields no entries, as the counted loop does. */
  function EntryCount(gpuCount: int): nat {
    if gpuCount < 0 then 0 else gpuCount
  }

  function Render(t: Template, entries: seq<string>, memory: int, product: string, strategy: string): string {
    Join([t.memory + Decimal(memory), t.product + product, t.heading, Join(entries), t.strategy + strategy])
  }

  function NodeTopologyText(node: string, gpuCount: int, memory: int, product: string, strategy: string): string {
    Render(TEMPLATE, Entries(TEMPLATE, node, EntryCount(gpuCount)), memory, product, strategy)
  }

  /** The loop that appends one entry per simulated GPU, and the text around it. */
  method BuildNodeTopology(node: string, gpuCount: int, memory: int, product: string, strategy: string)
    returns (text: string)
    ensures text == NodeTopologyText(node, gpuCount, memory, product, strategy)
  {
    var t := TEMPLATE;
    var entries: seq<string> := [];
    var i := 0;
    while i < gpuCount
      invariant 0 <= i <= EntryCount(gpuCount)
      invariant entries == Entries(t, node, i)
    {
      entries := entries + [Join(EntryLines(t, node, i))];
      i := i + 1;
    }
    text := Render(t, entries, memory, product, strategy);
  }

  // ---------------------------------------------------------------- decoding

  datatype Topology = Topology(memory: int, product: string, ids: seq<string>, strategy: string)

  function StripField(field: string, line: string): Option<string> {
    if field <= line then Some(line[|field|..]) else None
  }

  /** The values of the lines that start with `field`, in order. */
  function IdsOf(field: string, lines: seq<string>): seq<string> {
    if lines == [] then []
    else (match StripField(field, lines[0]) case Some(id) => [id] case None => []) + IdsOf(field, lines[1..])
  }

  /** Reads a text whose fields have these names. */
  function ReadFields(memoryField: string, productField: string, heading: string, idField: string,
      strategyField: string, text: string): Option<Topology>
  {
    var lines := Split(text);
    if |lines| < 5 || lines[2] != heading then None
    else
      var memory := StripField(memoryField, lines[0]);
      var product := StripField(productField, lines[1]);
      var strategy := StripField(strategyField, lines[|lines| - 1]);
      if memory.None? || product.None? || strategy.None? then None
      else match ParseDecimal(memory.value)
        case None => None
        case Some(m) => Some(Topology(m, product.value, IdsOf(idField, lines[3..|lines| - 1]), strategy.value))
  }

  /** Reads the text by the names its consumers know, whatever names it was written with. */
  function Decode(text: string): Option<Topology> {
    ReadFields("gpuMemory: ", "gpuProduct: ", "gpus:", "    - id: ", "migStrategy: ", text)
  }

  function Ids(node: string, count: nat): seq<string> {
    seq(count, i requires 0 <= i < count => GpuId(node, i))
  }

  /** A line that neither breaks nor starts like an id. */
  predicate Plain(id: string, l: string) { OneLine(l) && !(id <= l) }

  predicate Sound(t: Template) {
    && OneLine(t.memory) && OneLine(t.product) && OneLine(t.strategy)
    && OneLine(t.id) && t.id != "" && Plain(t.id, t.heading)
    && forall l | l in t.tail :: Plain(t.id, l)
  }

  lemma StatusPlain()
    ensures Plain(ID, STATUS)
  {
    assert STATUS[4] != ID[4];
  }

  lemma AllocatedPlain()
    ensures Plain(ID, ALLOCATED)
  {
    assert ALLOCATED[4] != ID[4];
  }

  lemma NamespacePlain()
    ensures Plain(ID, NAMESPACE)
  {
    assert NAMESPACE[4] != ID[4];
  }

  lemma PodPlain()
    ensures Plain(ID, POD)
  {
    assert POD[4] != ID[4];
  }

  lemma ContainerPlain()
    ensures Plain(ID, CONTAINER)
  {
    assert CONTAINER[4] != ID[4];
  }

  lemma UsagePlain()
    ensures Plain(ID, USAGE)
  {
    assert USAGE[4] != ID[4];
  }

  lemma HeadingPlain()
    ensures Plain(ID, "gpus:") && OneLine(ID)
  {
    assert "gpus:"[0] != ID[0];
  }

  lemma TemplateSound()
    ensures Sound(TEMPLATE)
  {
    StatusPlain(); AllocatedPlain(); NamespacePlain(); PodPlain(); ContainerPlain(); UsagePlain(); HeadingPlain();
  }

  lemma {:induction false} IdsOfConcat(field: string, a: seq<string>, b: seq<string>)
    ensures IdsOf(field, a + b) == IdsOf(field, a) + IdsOf(field, b)
  {
    if a == [] {
      assert a + b == b;
    } else {
      assert (a + b)[0] == a[0] && (a + b)[1..] == a[1..] + b;
      IdsOfConcat(field, a[1..], b);
    }
  }

  lemma {:induction false} NoIds(t: Template, lines: seq<string>)
    requires forall l | l in lines :: Plain(t.id, l)
    ensures IdsOf(t.id, lines) == []
  {
    if lines != [] {
      assert lines[0] in lines && forall l | l in lines[1..] :: l in lines;
      NoIds(t, lines[1..]);
    }
  }

  lemma OneLineId(node: string, index: nat)
    requires OneLine(node)
    ensures OneLine(GpuId(node, index))
  {
    DecimalParse(index);
    assert OneLine("GPU-");
    assert OneLine("-");
  }

  lemma EntryLinesFacts(t: Template, node: string, index: nat)
    requires OneLine(node) && Sound(t)
    ensures IdsOf(t.id, EntryLines(t, node, index)) == [GpuId(node, index)]
    ensures forall l | l in EntryLines(t, node, index) :: OneLine(l)
  {
    var id := GpuId(node, index);
    OneLineId(node, index);
    NoIds(t, t.tail);
    IdsOfConcat(t.id, [t.id + id], t.tail);
    assert (t.id + id)[|t.id|..] == id;
  }

  function AllEntryLines(t: Template, node: string, count: nat): seq<string> {
    if count == 0 then [] else AllEntryLines(t, node, count - 1) + EntryLines(t, node, count - 1)
  }

  lemma {:induction false} AllEntryLinesFacts(t: Template, node: string, count: nat)
    requires OneLine(node) && Sound(t)
    ensures IdsOf(t.id, AllEntryLines(t, node, count)) == Ids(node, count)
    ensures forall l | l in AllEntryLines(t, node, count) :: OneLine(l)
  {
    if count > 0 {
      AllEntryLinesFacts(t, node, count - 1);
      EntryLinesFacts(t, node, count - 1);
      IdsOfConcat(t.id, AllEntryLines(t, node, count - 1), EntryLines(t, node, count - 1));
    }
  }

  lemma {:induction false} JoinEntries(t: Template, node: string, count: nat)
    requires count > 0
    ensures AllEntryLines(t, node, count) != []
    ensures Join(Entries(t, node, count)) == Join(AllEntryLines(t, node, count))
  {
    var before, lines := AllEntryLines(t, node, count - 1), EntryLines(t, node, count - 1);
    assert Entries(t, node, count) == Entries(t, node, count - 1) + [Join(lines)];
    if count > 1 {
      JoinEntries(t, node, count - 1);
      JoinTwo(Entries(t, node, count - 1), [Join(lines)]);
      JoinTwo(before, lines);
    } else {
      assert before + lines == lines;
    }
  }

  /** The lines between the heading and the strategy. */
  function Block(t: Template, node: string, count: nat): seq<string> {
    if count == 0 then [""] else AllEntryLines(t, node, count)
  }

  lemma BlockFacts(t: Template, node: string, count: nat)
    requires OneLine(node) && Sound(t)
    ensures Join(Block(t, node, count)) == Join(Entries(t, node, count))
    ensures IdsOf(t.id, Block(t, node, count)) == Ids(node, count)
    ensures Block(t, node, count) != [] && forall l | l in Block(t, node, count) :: OneLine(l)
  {
    AllEntryLinesFacts(t, node, count);
    if count > 0 { JoinEntries(t, node, count); }
    if count == 0 { NoIds(t, [""]); }
  }

  lemma FieldLines(t: Template, memory: int, product: string, strategy: string)
    requires OneLine(product) && OneLine(strategy) && Sound(t)
    ensures OneLine(t.memory + Decimal(memory)) && OneLine(t.product + product) && OneLine(t.heading)
    ensures OneLine(t.strategy + strategy)
  {
    hide Decimal;
    DecimalParse(memory);
  }

  lemma RenderedLines(t: Template, node: string, count: nat, memory: int, product: string, strategy: string)
    requires OneLine(node) && OneLine(product) && OneLine(strategy) && Sound(t)
    ensures Split(Render(t, Entries(t, node, count), memory, product, strategy))
         == [t.memory + Decimal(memory), t.product + product]
          + ([t.heading] + Block(t, node, count)) + [t.strategy + strategy]
  {
    hide Split, Join, Decimal, Block, Entries, IdsOf, Sound, OneLine;
    var entries, block := Entries(t, node, count), Block(t, node, count);
    var head := [t.memory + Decimal(memory), t.product + product, t.heading];
    var tail := [t.strategy + strategy];
    BlockFacts(t, node, count);
    FieldLines(t, memory, product, strategy);
    JoinNested(head, block, tail);
    assert head + [Join(block)] + tail
        == [t.memory + Decimal(memory), t.product + product, t.heading, Join(entries), t.strategy + strategy];
    var lines := head + block + tail;
    assert lines == [head[0], head[1]] + ([t.heading] + block) + tail;
    SplitJoin(lines);
  }

  lemma Stripped(field: string, value: string)
    ensures StripField(field, field + value) == Some(value)
  {
    assert (field + value)[|field|..] == value;
  }

  lemma ReadLines(t: Template, text: string, memory: int, product: string, block: seq<string>, strategy: string)
    requires block != [] && Split(text) == [t.memory + Decimal(memory), t.product + product]
      + ([t.heading] + block) + [t.strategy + strategy]
    ensures ReadFields(t.memory, t.product, t.heading, t.id, t.strategy, text)
      == Some(Topology(memory, product, IdsOf(t.id, block), strategy))
  {
    hide Split, StripField, Decimal, ParseDecimal, IdsOf;
    var lines := Split(text);
    assert lines[3..|lines| - 1] == block;
    Stripped(t.memory, Decimal(memory));
    Stripped(t.product, product);
    Stripped(t.strategy, strategy);
    DecimalParse(memory);
  }

  lemma RenderRoundTrip(t: Template, node: string, count: nat, memory: int, product: string, strategy: string)
    requires OneLine(node) && OneLine(product) && OneLine(strategy) && Sound(t)
    ensures ReadFields(t.memory, t.product, t.heading, t.id, t.strategy,
              Render(t, Entries(t, node, count), memory, product, strategy))
         == Some(Topology(memory, product, Ids(node, count), strategy))
  {
    hide Render, Split, ReadFields, Sound, OneLine;
    RenderedLines(t, node, count, memory, product, strategy);
    BlockFacts(t, node, count);
    ReadLines(t, Render(t, Entries(t, node, count), memory, product, strategy), memory, product,
      Block(t, node, count), strategy);
  }

  lemma {:induction false} LinesAreLines(s: string)
    ensures forall l | l in Split(s) :: OneLine(l)
  {
    if s != "" {
      var rest := Split(s[1..]);
      LinesAreLines(s[1..]);
      assert rest[0] in rest;
      assert forall l | l in rest[1..] :: l in rest;
    }
  }

  lemma StripOneLine(field: string, line: string)
    requires OneLine(line)
    ensures var r := StripField(field, line); r.Some? ==> OneLine(r.value)
  {
  }

  lemma {:induction false} IdsOneLine(field: string, lines: seq<string>)
    requires forall l | l in lines :: OneLine(l)
    ensures forall id | id in IdsOf(field, lines) :: OneLine(id)
    decreases |lines|
  {
    if lines != [] {
      StripOneLine(field, lines[0]);
      IdsOneLine(field, lines[1..]);
    }
  }

  /** Nothing that is decoded holds a line break. */
  lemma DecodedOneLine(text: string)
    ensures var d := Decode(text);
      d.Some? ==> OneLine(d.value.product) && OneLine(d.value.strategy) && forall id | id in d.value.ids :: OneLine(id)
  {
    hide StripField, OneLine, Split, IdsOf;
    var lines := Split(text);
    LinesAreLines(text);
    if |lines| >= 5 {
      StripOneLine("gpuProduct: ", lines[1]);
      StripOneLine("migStrategy: ", lines[|lines| - 1]);
      IdsOneLine("    - id: ", lines[3..|lines| - 1]);
    }
  }

  lemma IdShowsNode(node: string, count: nat)
    requires count > 0 && forall id | id in Ids(node, count) :: OneLine(id)
    ensures OneLine(node)
  {
    var id := GpuId(node, 0);
    assert Ids(node, count)[0] == id && id in Ids(node, count);
    forall i | 0 <= i < |node| ensures node[i] != NEWLINE {
      assert id[4 + i] == node[i] && id[4 + i] in id;
    }
  }

  /** A text without entries does not depend on the node. */
  lemma NoEntries(node: string, other: string)
    ensures Entries(TEMPLATE, node, 0) == Entries(TEMPLATE, other, 0) && Ids(node, 0) == Ids(other, 0)
  {
  }

  /** What a consumer is to learn of a node: memory, product, one id for each GPU in order, and strategy. */
  predicate Describes(t: Topology, node: string, gpuCount: int, memory: int, product: string, strategy: string) {
    && t.memory == memory && t.product == product && t.strategy == strategy
    && |t.ids| == (if gpuCount < 0 then 0 else gpuCount)
    && forall i | 0 <= i < |t.ids| :: t.ids[i] == "GPU-" + node + "-" + Decimal(i)
  }

  lemma DescribedAs(t: Topology, node: string, gpuCount: int, memory: int, product: string, strategy: string)
    ensures Describes(t, node, gpuCount, memory, product, strategy)
      <==> t == Topology(memory, product, Ids(node, EntryCount(gpuCount)), strategy)
  {
    if Describes(t, node, gpuCount, memory, product, strategy) { assert t.ids == Ids(node, EntryCount(gpuCount)); }
  }

  /**
   * Reading a rendered topology by its field names gives back everything that went into it, ids in order, exactly when
   * product and strategy, and with any GPU at all the node's name, are one line each.
   */
  lemma TopologyRoundTrip(node: string, gpuCount: int, memory: int, product: string, strategy: string)
    ensures var d := Decode(NodeTopologyText(node, gpuCount, memory, product, strategy));
      (d.Some? && Describes(d.value, node, gpuCount, memory, product, strategy))
      <==> OneLine(product) && OneLine(strategy) && (OneLine(node) || gpuCount <= 0)
  {
    hide ReadFields, OneLine, Ids, Entries, Render, Describes;
    var count := EntryCount(gpuCount);
    var d := Decode(NodeTopologyText(node, gpuCount, memory, product, strategy));
    if OneLine(product) && OneLine(strategy) && (OneLine(node) || count == 0) {
      TemplateSound();
      var named := if OneLine(node) then node else "";
      NoEntries(node, named);
      assert OneLine(named) by { EmptyIsOneLine(); }
      RenderRoundTrip(TEMPLATE, named, count, memory, product, strategy);
    }
    DecodedOneLine(NodeTopologyText(node, gpuCount, memory, product, strategy));
    if d.Some? { DescribedAs(d.value, node, gpuCount, memory, product, strategy); }
    if count > 0 && forall id | id in Ids(node, count) :: OneLine(id) { IdShowsNode(node, count); }
  }

  /** The whole text, line for line and for every input. */
  lemma TopologyWording(node: string, gpuCount: int, memory: int, product: string, strategy: string)
    ensures NodeTopologyText(node, gpuCount, memory, product, strategy)
      == Join(["gpuMemory: " + Decimal(memory), "gpuProduct: " + product, "gpus:",
               Join(seq(if gpuCount < 0 then 0 else gpuCount, i requires 0 <= i =>
                 Join(["    - id: " + ("GPU-" + node + "-" + Decimal(i)), "      status:", "        allocatedBy:",
                       "          namespace: \"\"", "          pod: \"\"", "          container: \"\"",
                       "        podGpuUsageStatus: {}"]))),
               "migStrategy: " + strategy])
  {
    hide Join, Decimal;
    var count := EntryCount(gpuCount);
    var entries := Entries(TEMPLATE, node, count);
    var worded := seq(count, i requires 0 <= i =>
      Join(["    - id: " + ("GPU-" + node + "-" + Decimal(i)), "      status:", "        allocatedBy:",
            "          namespace: \"\"", "          pod: \"\"", "          container: \"\"",
            "        podGpuUsageStatus: {}"]));
    forall i | 0 <= i < count ensures entries[i] == worded[i] { EntryWording(node, i); }
    assert entries == worded;
  }

  lemma EntryWording(node: string, index: nat)
    ensures EntryLines(TEMPLATE, node, index)
      == ["    - id: " + ("GPU-" + node + "-" + Decimal(index)), "      status:", "        allocatedBy:",
          "          namespace: \"\"", "          pod: \"\"", "          container: \"\"",
          "        podGpuUsageStatus: {}"]
  {
  }

  lemma EmptyIsOneLine()
    ensures OneLine("")
  {
  }

  // ---------------------------------------------------------------- the pool's text

  const POOL_LABEL := "run.ai/simulated-gpu-node-pool"

  function PoolTopologyText(pool: string, gpuCount: int, memory: int, product: string, strategy: string): string {
    Join(["migStrategy: " + strategy,
          "nodePoolLabelKey: " + POOL_LABEL,
          "nodePools:",
          "  " + pool + ":",
          "    gpuCount: " + Decimal(gpuCount),
          "    gpuMemory: " + Decimal(memory),
          "    gpuProduct: " + product])
  }

  datatype PoolTopology =
    PoolTopology(strategy: string, labelKey: string, pool: string, gpuCount: int, memory: int, product: string)

  function StripColon(line: string): Option<string> {
    if line != "" && line[|line| - 1] == ':' then Some(line[..|line| - 1]) else None
  }

  function ReadNumber(field: string, line: string): Option<int> {
    match StripField(field, line)
    case None => None
    case Some(digits) => ParseDecimal(digits)
  }

  /** The name of the one pool listed. */
  function ReadPool(line: string): Option<string> {
    match StripField("  ", line)
    case None => None
    case Some(entry) => StripColon(entry)
  }

  /** Reads the pool's text by the names of its fields. */
  function DecodePool(text: string): Option<PoolTopology> {
    var lines := Split(text);
    if |lines| != 7 || lines[2] != "nodePools:" then None
    else
      var strategy := StripField("migStrategy: ", lines[0]);
      var labelKey := StripField("nodePoolLabelKey: ", lines[1]);
      var pool := ReadPool(lines[3]);
      var gpuCount := ReadNumber("    gpuCount: ", lines[4]);
      var memory := ReadNumber("    gpuMemory: ", lines[5]);
      var product := StripField("    gpuProduct: ", lines[6]);
      if strategy.None? || labelKey.None? || pool.None? || gpuCount.None? || memory.None? || product.None? then None
      else Some(PoolTopology(strategy.value, labelKey.value, pool.value, gpuCount.value, memory.value, product.value))
  }

  lemma PoolRead(pool: string)
    ensures ReadPool("  " + pool + ":") == Some(pool)
  {
    var entry := pool + ":";
    assert "  " + pool + ":" == "  " + entry;
    Stripped("  ", entry);
    assert entry[..|entry| - 1] == pool;
  }

  lemma NumberRead(field: string, n: int)
    ensures ReadNumber(field, field + Decimal(n)) == Some(n)
  {
    Stripped(field, Decimal(n));
    DecimalParse(n);
  }

  lemma OneLineConcat(a: string, b: string)
    ensures OneLine(a + b) <==> OneLine(a) && OneLine(b)
  {
    forall i | 0 <= i < |a| ensures (a + b)[i] == a[i] { }
    forall i | 0 <= i < |b| ensures (a + b)[|a| + i] == b[i] { }
  }

  lemma DecimalOneLine(n: int)
    ensures OneLine(Decimal(n))
  {
    DecimalParse(n);
  }

  lemma FixedWords()
    ensures OneLine("migStrategy: ") && OneLine("nodePools:") && OneLine("  ") && OneLine(":")
    ensures OneLine("    gpuCount: ") && OneLine("    gpuMemory: ") && OneLine("    gpuProduct: ")
  {
  }

  lemma LabelKeyOneLine()
    ensures OneLine("nodePoolLabelKey: " + POOL_LABEL)
  {
    assert OneLine("nodePoolLabelKey: ");
    assert POOL_LABEL == "run.ai/simulated-" + "gpu-node-pool";
    OneLineConcat("run.ai/simulated-", "gpu-node-pool");
    OneLineConcat("nodePoolLabelKey: ", POOL_LABEL);
  }

  lemma PoolLines(pool: string, gpuCount: int, memory: int, product: string, strategy: string)
    requires OneLine(pool) && OneLine(product) && OneLine(strategy)
    ensures Split(PoolTopologyText(pool, gpuCount, memory, product, strategy))
      == ["migStrategy: " + strategy, "nodePoolLabelKey: " + POOL_LABEL, "nodePools:",
          "  " + pool + ":", "    gpuCount: " + Decimal(gpuCount), "    gpuMemory: " + Decimal(memory),
          "    gpuProduct: " + product]
  {
    hide OneLine, Join, Split, Decimal;
    FixedWords();
    LabelKeyOneLine();
    OneLineConcat("migStrategy: ", strategy);
    OneLineConcat("  ", pool);
    OneLineConcat("  " + pool, ":");
    DecimalOneLine(gpuCount);
    DecimalOneLine(memory);
    OneLineConcat("    gpuCount: ", Decimal(gpuCount));
    OneLineConcat("    gpuMemory: ", Decimal(memory));
    OneLineConcat("    gpuProduct: ", product);
    SplitJoin(["migStrategy: " + strategy, "nodePoolLabelKey: " + POOL_LABEL, "nodePools:",
      "  " + pool + ":", "    gpuCount: " + Decimal(gpuCount), "    gpuMemory: " + Decimal(memory),
      "    gpuProduct: " + product]);
  }

  lemma ColonOneLine(line: string)
    requires OneLine(line)
    ensures var r := StripColon(line); r.Some? ==> OneLine(r.value)
  {
  }

  lemma DecodedPoolOneLine(text: string)
    ensures var d := DecodePool(text);
      d.Some? ==> OneLine(d.value.strategy) && OneLine(d.value.pool) && OneLine(d.value.product)
  {
    hide StripField, OneLine, Split, StripColon, ReadNumber;
    var lines := Split(text);
    LinesAreLines(text);
    if |lines| == 7 {
      StripOneLine("migStrategy: ", lines[0]);
      StripOneLine("    gpuProduct: ", lines[6]);
      StripOneLine("  ", lines[3]);
      if StripField("  ", lines[3]).Some? { ColonOneLine(StripField("  ", lines[3]).value); }
    }
  }

  /**
   * Reading the pool's text gives back the pool, the count, memory and product of its GPUs, the strategy, and the label
   * that puts a node into the pool, exactly when pool, product and strategy are one line each.
   */
  lemma PoolRoundTrip(pool: string, gpuCount: int, memory: int, product: string, strategy: string)
    ensures DecodePool(PoolTopologyText(pool, gpuCount, memory, product, strategy))
        == Some(PoolTopology(strategy, "run.ai/simulated-gpu-node-pool", pool, gpuCount, memory, product))
      <==> OneLine(pool) && OneLine(product) && OneLine(strategy)
  {
    hide OneLine, Split, StripField, Decimal, ReadNumber, ReadPool, PoolTopologyText;
    DecodedPoolOneLine(PoolTopologyText(pool, gpuCount, memory, product, strategy));
    if OneLine(pool) && OneLine(product) && OneLine(strategy) {
      PoolLines(pool, gpuCount, memory, product, strategy);
      Stripped("migStrategy: ", strategy);
      Stripped("nodePoolLabelKey: ", POOL_LABEL);
      PoolRead(pool);
      NumberRead("    gpuCount: ", gpuCount);
      NumberRead("    gpuMemory: ", memory);
      Stripped("    gpuProduct: ", product);
    }
  }

  // ---------------------------------------------------------------- ids

  lemma LastDash(a: string, x: string, b: string, y: string)
    requires '-' !in x && '-' !in y
    requires a + "-" + x == b + "-" + y
    ensures a == b && x == y
  {
    var s := a + "-" + x;
    if |a| < |b| {
      DashTooLate(a, x, b, y);
    } else if |b| < |a| {
      DashTooLate(b, y, a, x);
    }
    assert a == s[..|a|] && b == s[..|b|];
    assert x == s[|a| + 1..] && y == s[|b| + 1..];
  }

  lemma DashTooLate(a: string, x: string, b: string, y: string)
    requires '-' !in x && a + "-" + x == b + "-" + y
    ensures |b| <= |a|
  {
    var s := a + "-" + x;
    assert (b + "-" + y)[|b|] == '-';
    assert forall i | |a| < i < |s| :: s[i] == x[i - |a| - 1];
  }

  /** No two simulated GPUs in the cluster share an id, whatever the node names look like. */
  lemma GpuIdInjective(n1: string, i1: nat, n2: string, i2: nat)
    requires GpuId(n1, i1) == GpuId(n2, i2)
    ensures n1 == n2 && i1 == i2
  {
    DigitsParse(i1);
    DigitsParse(i2);
    LastDash("GPU-" + n1, Decimal(i1), "GPU-" + n2, Decimal(i2));
    assert n1 == ("GPU-" + n1)[4..];
    assert n2 == ("GPU-" + n2)[4..];
  }
}
