// The configuration file: the printer, a line reader for it, and the proof that
// reading gives back what was printed.
module ConfigText {
  import opened Types
  import opened Text
  import opened Numbers

  const NEWLINE := '\n'
  const EQUALS := '='

  /** A line of the file; the printed blanks around `=` differ from entry to entry. */
  datatype Row = Blank | Header(text: string) | Entry(key: string, pre: bool, post: bool, value: string)

  function Pad(b: bool): string {
    if b then " " else ""
  }

  function Render(row: Row): string {
    match row
    case Blank => ""
    case Header(text) => text
    case Entry(key, pre, post, value) => key + Pad(pre) + [EQUALS] + Pad(post) + value
  }

  function Print(rows: seq<Row>): string {
    if rows == [] then "" else Render(rows[0]) + [NEWLINE] + Print(rows[1..])
  }

  /** Everything the file says. */
  datatype Conf = Conf(
    adminPassword: string, dataDir: string,
    host: string, port: int, user: string, password: string, maxConn: int, name: string,
    debugMode: bool, withoutDemo: bool, proxyMode: bool, workers: int,
    limitMemorySoft: int, limitMemoryHard: int, limitRequest: int, limitTimeCpu: int, limitTimeReal: int,
    maxCronThreads: int, addonsPaths: seq<string>)

  /** The keys, in the order they are printed. */
  const KEYS := [
    "admin_passwd", "data_dir", "db_host", "db_port", "db_user", "db_password", "db_maxconn", "db_name",
    "debug_mode", "without_demo", "proxy_mode", "workers", "limit_memory_soft", "limit_memory_hard",
    "limit_request", "limit_time_cpu", "limit_time_real", "max_cron_threads", "addons_path"]

  /** The value printed for the k-th key. */
  function ValueAt(c: Conf, k: nat): string
    requires k < 18
  {
    match k
    case 0 => c.adminPassword
    case 1 => c.dataDir
    case 2 => c.host
    case 3 => IntText(c.port)
    case 4 => c.user
    case 5 => c.password
    case 6 => IntText(c.maxConn)
    case 7 => c.name
    case 8 => BoolText(c.debugMode)
    case 9 => BoolText(c.withoutDemo)
    case 10 => BoolText(c.proxyMode)
    case 11 => IntText(c.workers)
    case 12 => IntText(c.limitMemorySoft)
    case 13 => IntText(c.limitMemoryHard)
    case 14 => IntText(c.limitRequest)
    case 15 => IntText(c.limitTimeCpu)
    case 16 => IntText(c.limitTimeReal)
    case _ => IntText(c.maxCronThreads)
  }

  function Values(c: Conf): (v: seq<string>)
    ensures |v| == 18 && forall k :: 0 <= k < 18 ==> v[k] == ValueAt(c, k)
  {
    seq(18, k requires 0 <= k < 18 => ValueAt(c, k))
  }

  /** The row that prints the k-th key, and the key a row prints. */
  function RowOf(k: nat): nat {
    if k < 2 then k + 1 else if k < 8 then k + 2 else k + 3
  }

  function KeyOf(row: nat): (k: nat)
    requires row != 0 && row != 3 && row != 10
    ensures RowOf(k) == row
  {
    if row < 3 then row - 1 else if row < 10 then row - 2 else row - 3
  }

  /** The first 21 lines: a header, two blank lines, and one entry per key. Every `=` stands
      between blanks, except in `data_dir` (none) and in `db_name` (one, after it). */
  function RowAt(keys: seq<string>, values: seq<string>, i: nat): Row
    requires |keys| == 19 && |values| == 18 && i < 21
  {
    if i == 0 then Header("[options]")
    else if i == 3 || i == 10 then Blank
    else
      var k := KeyOf(i);
      Entry(keys[k], k != 1 && k != 7, k != 1, values[k])
  }

  function FixedRows(keys: seq<string>, values: seq<string>): (rows: seq<Row>)
    requires |keys| == 19 && |values| == 18
    ensures |rows| == 21 && forall i :: 0 <= i < 21 ==> rows[i] == RowAt(keys, values, i)
  {
    seq(21, i requires 0 <= i < 21 => RowAt(keys, values, i))
  }

  function AddonsRows(keys: seq<string>, paths: seq<string>): seq<Row>
    requires |keys| == 19
  {
    if paths == [] then [] else [Entry(keys[18], true, true, JoinOn(paths, COMMA))]
  }

  function Rows(keys: seq<string>, c: Conf): seq<Row>
    requires |keys| == 19
  {
    FixedRows(keys, Values(c)) + AddonsRows(keys, c.addonsPaths)
  }

  function Serialized(c: Conf): string {
    Print(Rows(KEYS, c))
  }

  // The reader: skip lines without `=`, split at the first `=`, trim both sides.

  function EntriesOf(lines: seq<string>): seq<(string, string)> {
    if lines == [] then []
    else if Contains(lines[0], EQUALS) then
      var i := IndexOf(lines[0], EQUALS);
      [(Trim(lines[0][..i]), Trim(lines[0][i + 1..]))] + EntriesOf(lines[1..])
    else
      EntriesOf(lines[1..])
  }

  function Read(text: string): seq<(string, string)> {
    EntriesOf(SplitOn(text, NEWLINE))
  }

  /** The value of the first entry with this key. */
  function Lookup(entries: seq<(string, string)>, key: string): Option<string> {
    if entries == [] then None
    else if entries[0].0 == key then Some(entries[0].1)
    else Lookup(entries[1..], key)
  }

  function LookupInt(entries: seq<(string, string)>, key: string): Option<int> {
    var text :- Lookup(entries, key);
    ParseInt(text)
  }

  function LookupBool(entries: seq<(string, string)>, key: string): Option<bool> {
    var text :- Lookup(entries, key);
    ParseBool(text)
  }

  function DecodeEntries(keys: seq<string>, e: seq<(string, string)>): Option<Conf>
    requires |keys| == 19
  {
    var adminPassword :- Lookup(e, keys[0]);
    var dataDir :- Lookup(e, keys[1]);
    var host :- Lookup(e, keys[2]);
    var port :- LookupInt(e, keys[3]);
    var user :- Lookup(e, keys[4]);
    var password :- Lookup(e, keys[5]);
    var maxConn :- LookupInt(e, keys[6]);
    var name :- Lookup(e, keys[7]);
    var debugMode :- LookupBool(e, keys[8]);
    var withoutDemo :- LookupBool(e, keys[9]);
    var proxyMode :- LookupBool(e, keys[10]);
    var workers :- LookupInt(e, keys[11]);
    var soft :- LookupInt(e, keys[12]);
    var hard :- LookupInt(e, keys[13]);
    var request :- LookupInt(e, keys[14]);
    var cpu :- LookupInt(e, keys[15]);
    var real_ :- LookupInt(e, keys[16]);
    var cron :- LookupInt(e, keys[17]);
    var paths := match Lookup(e, keys[18]) case None => [] case Some(t) => SplitOn(t, COMMA);
    Some(Conf(adminPassword, dataDir, host, port, user, password, maxConn, name, debugMode, withoutDemo,
              proxyMode, workers, soft, hard, request, cpu, real_, cron, paths))
  }

  function Decode(text: string): Option<Conf> {
    DecodeEntries(KEYS, Read(text))
  }

  // Reading back the printed rows.

  predicate OneLine(s: string) {
    !Contains(s, NEWLINE)
  }

  predicate ReadableRow(row: Row) {
    match row
    case Blank => true
    case Header(text) => OneLine(text) && !Contains(text, EQUALS)
    case Entry(key, _, _, value) => OneLine(key) && !Contains(key, EQUALS) && Trimmed(key) && OneLine(value)
  }

  predicate Readable(rows: seq<Row>) {
    forall i :: 0 <= i < |rows| ==> ReadableRow(rows[i])
  }

  /** The entries a reader should find. */
  function Expected(rows: seq<Row>): seq<(string, string)> {
    if rows == [] then []
    else if rows[0].Entry? then [(rows[0].key, Trim(rows[0].value))] + Expected(rows[1..])
    else Expected(rows[1..])
  }

  lemma PlainConcat(a: string, b: string, c: char)
    ensures Contains(a + b, c) <==> Contains(a, c) || Contains(b, c)
  {
    if i :| 0 <= i < |a| && a[i] == c {
      assert (a + b)[i] == c;
    }
    if i :| 0 <= i < |b| && b[i] == c {
      assert (a + b)[|a| + i] == c;
    }
  }

  lemma RenderOneLine(row: Row)
    requires ReadableRow(row)
    ensures OneLine(Render(row))
  {
    if row.Entry? {
      PlainConcat(row.key, Pad(row.pre), NEWLINE);
      PlainConcat(row.key + Pad(row.pre), [EQUALS], NEWLINE);
      PlainConcat(row.key + Pad(row.pre) + [EQUALS], Pad(row.post), NEWLINE);
      PlainConcat(row.key + Pad(row.pre) + [EQUALS] + Pad(row.post), row.value, NEWLINE);
    }
  }

  lemma TrimPadLeft(post: bool, s: string)
    ensures Trim(Pad(post) + s) == Trim(s)
  {
    if post {
      assert (" " + s)[1..] == s;
    } else {
      assert "" + s == s;
    }
  }

  lemma TrimPadRight(s: string, pre: bool)
    requires Trimmed(s)
    ensures Trim(s + Pad(pre)) == s
  {
    TrimPadded(s);
    assert s + "" == s;
  }

  lemma ReadRow(row: Row)
    requires ReadableRow(row)
    ensures EntriesOf([Render(row)]) == Expected([row])
  {
    var line := Render(row);
    var lines, rows := [line], [row];
    assert lines[1..] == [] && rows[1..] == [];
    if row.Entry? {
      var left, right := row.key + Pad(row.pre), Pad(row.post) + row.value;
      assert line == left + [EQUALS] + right;
      PlainConcat(row.key, Pad(row.pre), EQUALS);
      FirstAfter(left, right, EQUALS);
      assert line[..|left|] == left && line[|left| + 1..] == right;
      TrimPadRight(row.key, row.pre);
      TrimPadLeft(row.post, row.value);
    }
  }

  lemma EntriesCons(line: string, rest: seq<string>)
    ensures EntriesOf([line] + rest) == EntriesOf([line]) + EntriesOf(rest)
  {
    var one := [line];
    assert (one + rest)[1..] == rest && one[1..] == [];
  }

  lemma ExpectedCons(row: Row, rest: seq<Row>)
    ensures Expected([row] + rest) == Expected([row]) + Expected(rest)
  {
    var one := [row];
    assert (one + rest)[1..] == rest && one[1..] == [];
  }

  lemma ReadLine(row: Row, rest: string)
    requires ReadableRow(row)
    ensures Read(Render(row) + [NEWLINE] + rest) == Expected([row]) + Read(rest)
  {
    RenderOneLine(row);
    SplitAt(Render(row), rest, NEWLINE);
    EntriesCons(Render(row), SplitOn(rest, NEWLINE));
    ReadRow(row);
  }

  lemma ReadNothing()
    ensures Read("") == []
  {
    var one := [""];
    assert SplitOn("", NEWLINE) == one;
    assert one[1..] == [];
  }

  lemma {:induction false} ReadPrinted(rows: seq<Row>)
    requires Readable(rows)
    ensures Read(Print(rows)) == Expected(rows)
  {
    if rows == [] {
      ReadNothing();
    } else {
      ReadLine(rows[0], Print(rows[1..]));
      ReadPrinted(rows[1..]);
      assert rows == [rows[0]] + rows[1..];
      ExpectedCons(rows[0], rows[1..]);
    }
  }

  lemma {:induction false} LookupRow(rows: seq<Row>, i: nat)
    requires i < |rows| && rows[i].Entry?
    requires forall j :: 0 <= j < i && rows[j].Entry? ==> rows[j].key != rows[i].key
    ensures Lookup(Expected(rows), rows[i].key) == Some(Trim(rows[i].value))
  {
    if i > 0 {
      LookupRow(rows[1..], i - 1);
    }
  }

  predicate Distinct(keys: seq<string>) {
    forall i, j :: 0 <= i < j < |keys| ==> keys[i] != keys[j]
  }

  predicate PlainKeys(keys: seq<string>) {
    forall i :: 0 <= i < |keys| ==> Trimmed(keys[i]) && OneLine(keys[i]) && !Contains(keys[i], EQUALS)
  }

  predicate GoodKeys(keys: seq<string>) {
    |keys| == 19 && Distinct(keys) && PlainKeys(keys)
  }

  lemma KeysDistinct()
    ensures forall i, j :: 0 <= i < j < |KEYS| ==> KEYS[i] != KEYS[j]
  {
  }

  lemma KeysPlain()
    ensures forall i :: 0 <= i < |KEYS| ==> !Contains(KEYS[i], EQUALS)
  {
  }

  lemma KeysTrimmed()
    ensures forall i :: 0 <= i < |KEYS| ==> Trimmed(KEYS[i])
  {
  }

  lemma KeysOneLine()
    ensures forall i :: 0 <= i < |KEYS| ==> OneLine(KEYS[i])
  {
  }

  lemma GoodKeysHere()
    ensures GoodKeys(KEYS)
  {
    KeysDistinct();
    KeysPlain();
    KeysTrimmed();
    KeysOneLine();
  }

  lemma RowsLaidOut(keys: seq<string>, c: Conf)
    requires |keys| == 19
    ensures |Rows(keys, c)| == if c.addonsPaths == [] then 21 else 22
    ensures Rows(keys, c)[0] == Header("[options]") && Rows(keys, c)[3] == Blank && Rows(keys, c)[10] == Blank
    ensures forall i :: 0 <= i < |Rows(keys, c)| && i != 0 && i != 3 && i != 10 ==>
      KeyOf(i) < 19 && Rows(keys, c)[i].Entry? && Rows(keys, c)[i].key == keys[KeyOf(i)]
  {
  }

  /** Each key looks up the value printed for it. */
  lemma FieldRead(keys: seq<string>, c: Conf, k: nat)
    requires GoodKeys(keys) && RowOf(k) < |Rows(keys, c)| && k < 19
    ensures Rows(keys, c)[RowOf(k)].Entry?
    ensures Lookup(Expected(Rows(keys, c)), keys[k]) == Some(Trim(Rows(keys, c)[RowOf(k)].value))
  {
    RowsLaidOut(keys, c);
    var r, i := Rows(keys, c), RowOf(k);
    forall j | 0 <= j < i && r[j].Entry? ensures r[j].key != r[i].key {
      assert KeyOf(j) < KeyOf(i) == k;
    }
    LookupRow(r, i);
  }

  lemma {:induction false} LookupMissing(rows: seq<Row>, key: string)
    requires forall j :: 0 <= j < |rows| && rows[j].Entry? ==> rows[j].key != key
    ensures Lookup(Expected(rows), key) == None
  {
    if rows != [] {
      LookupMissing(rows[1..], key);
    }
  }

  /** The text values of a configuration, and what they have to satisfy to stay on a line. */
  predicate TextsOneLine(c: Conf) {
    OneLine(c.adminPassword) && OneLine(c.dataDir) && OneLine(c.host) && OneLine(c.user) &&
    OneLine(c.password) && OneLine(c.name)
  }

  predicate TextsTrimmed(c: Conf) {
    Trimmed(c.adminPassword) && Trimmed(c.dataDir) && Trimmed(c.host) && Trimmed(c.user) &&
    Trimmed(c.password) && Trimmed(c.name)
  }

  /** The pattern the resource definition declares for an extra addons path. */
  predicate DeclaredPath(p: string) {
    |p| >= 2 && p[0] == '/' &&
    forall i :: 1 <= i < |p| ==> p[i] !in [',', '\n', '\r', '#', ' ']
  }

  predicate DeclaredPaths(paths: seq<string>) {
    forall p :: p in paths ==> DeclaredPath(p)
  }

  lemma NumbersOneLine(n: int)
    ensures OneLine(IntText(n)) && Trimmed(IntText(n))
  {
    IntTextPlain(n);
  }

  lemma {:induction false} JoinContains(paths: seq<string>, sep: char, c: char)
    requires |paths| >= 1 && sep != c
    requires forall p :: p in paths ==> !Contains(p, c)
    ensures !Contains(JoinOn(paths, sep), c)
  {
    if |paths| > 1 {
      JoinContains(paths[1..], sep, c);
      PlainConcat(paths[0], [sep], c);
      PlainConcat(paths[0] + [sep], JoinOn(paths[1..], sep), c);
    }
  }

  lemma ValuesOneLine(c: Conf)
    requires TextsOneLine(c)
    ensures forall k :: 0 <= k < 18 ==> OneLine(Values(c)[k])
  {
    forall n: int ensures OneLine(IntText(n)) {
      NumbersOneLine(n);
    }
    assert OneLine(BoolText(true)) && OneLine(BoolText(false));
  }

  lemma RowsReadable(keys: seq<string>, c: Conf)
    requires GoodKeys(keys) && TextsOneLine(c) && DeclaredPaths(c.addonsPaths)
    ensures Readable(Rows(keys, c))
  {
    RowsLaidOut(keys, c);
    ValuesOneLine(c);
    var r := Rows(keys, c);
    forall i | 0 <= i < |r| ensures ReadableRow(r[i]) {
      if i >= 21 {
        JoinContains(c.addonsPaths, COMMA, NEWLINE);
      }
    }
  }

  /** What a reader sees of a configuration: surrounding blanks of texts are lost. */
  function Seen(c: Conf): Conf {
    c.(adminPassword := Trim(c.adminPassword), dataDir := Trim(c.dataDir), host := Trim(c.host),
       user := Trim(c.user), password := Trim(c.password), name := Trim(c.name),
       addonsPaths := if c.addonsPaths == [] then [] else SplitOn(Trim(JoinOn(c.addonsPaths, COMMA)), COMMA))
  }

  /** The entries `e` hold, under each key, the trimmed value printed for it. */
  ghost predicate ReadsFields(keys: seq<string>, e: seq<(string, string)>, values: seq<string>) {
    |keys| == 19 && |values| == 18 && forall k :: 0 <= k < 18 ==> Lookup(e, keys[k]) == Some(Trim(values[k]))
  }

  lemma FieldsRead(keys: seq<string>, c: Conf)
    requires GoodKeys(keys)
    ensures ReadsFields(keys, Expected(Rows(keys, c)), Values(c))
  {
    RowsLaidOut(keys, c);
    forall k | 0 <= k < 18 ensures Lookup(Expected(Rows(keys, c)), keys[k]) == Some(Trim(Values(c)[k])) {
      FieldRead(keys, c, k);
    }
  }

  lemma PrintedNumber(n: int)
    ensures ParseInt(Trim(IntText(n))) == Some(n)
  {
    NumbersOneLine(n);
    TrimPadded(IntText(n));
    IntTextRoundTrip(n);
  }

  lemma PrintedSwitch(b: bool)
    ensures ParseBool(Trim(BoolText(b))) == Some(b)
  {
    assert Trimmed(BoolText(b));
    TrimPadded(BoolText(b));
    BoolTextRoundTrip(b);
  }

  ghost predicate Hold(v: seq<string>, c: Conf) {
    |v| == 18 &&
    v[0] == c.adminPassword && v[1] == c.dataDir && v[2] == c.host && v[3] == IntText(c.port) &&
    v[4] == c.user && v[5] == c.password && v[6] == IntText(c.maxConn) && v[7] == c.name &&
    v[8] == BoolText(c.debugMode) && v[9] == BoolText(c.withoutDemo) && v[10] == BoolText(c.proxyMode) &&
    v[11] == IntText(c.workers) && v[12] == IntText(c.limitMemorySoft) && v[13] == IntText(c.limitMemoryHard) &&
    v[14] == IntText(c.limitRequest) && v[15] == IntText(c.limitTimeCpu) && v[16] == IntText(c.limitTimeReal) &&
    v[17] == IntText(c.maxCronThreads)
  }

  lemma ValuesHold(c: Conf)
    ensures Hold(Values(c), c)
  {
  }

  lemma FieldsDecoded(keys: seq<string>, e: seq<(string, string)>, v: seq<string>, c: Conf)
    requires ReadsFields(keys, e, v) && Hold(v, c)
    requires (match Lookup(e, keys[18]) case None => [] case Some(t) => SplitOn(t, COMMA)) == Seen(c).addonsPaths
    ensures DecodeEntries(keys, e) == Some(Seen(c))
  {
    forall n: int ensures ParseInt(Trim(IntText(n))) == Some(n) {
      PrintedNumber(n);
    }
    forall b: bool ensures ParseBool(Trim(BoolText(b))) == Some(b) {
      PrintedSwitch(b);
    }
  }

  lemma PathsEntry(keys: seq<string>, c: Conf)
    requires GoodKeys(keys)
    ensures Lookup(Expected(Rows(keys, c)), keys[18]) ==
            if c.addonsPaths == [] then None else Some(Trim(JoinOn(c.addonsPaths, COMMA)))
  {
    RowsLaidOut(keys, c);
    if c.addonsPaths == [] {
      LookupMissing(Rows(keys, c), keys[18]);
    } else {
      FieldRead(keys, c, 18);
    }
  }

  lemma PathsField(keys: seq<string>, c: Conf)
    requires GoodKeys(keys)
    ensures (match Lookup(Expected(Rows(keys, c)), keys[18]) case None => [] case Some(t) => SplitOn(t, COMMA))
            == Seen(c).addonsPaths
  {
    PathsEntry(keys, c);
  }

  /** Reading the printed file gives every field back, up to surrounding blanks. */
  lemma DecodeSerialized(c: Conf)
    requires TextsOneLine(c) && DeclaredPaths(c.addonsPaths)
    ensures Decode(Serialized(c)) == Some(Seen(c))
  {
    GoodKeysHere();
    DecodeRows(KEYS, c);
  }

  lemma DecodeRows(keys: seq<string>, c: Conf)
    requires GoodKeys(keys) && TextsOneLine(c) && DeclaredPaths(c.addonsPaths)
    ensures DecodeEntries(keys, Read(Print(Rows(keys, c)))) == Some(Seen(c))
  {
    RowsReadable(keys, c);
    ReadPrinted(Rows(keys, c));
    FieldsRead(keys, c);
    PathsField(keys, c);
    ValuesHold(c);
    FieldsDecoded(keys, Expected(Rows(keys, c)), Values(c), c);
  }

  // Exactly when nothing is lost.

  lemma JoinCons(head: string, rest: seq<string>, c: char)
    requires rest != []
    ensures JoinOn([head] + rest, c) == head + [c] + JoinOn(rest, c)
  {
    assert ([head] + rest)[1..] == rest;
  }

  lemma {:induction false} JoinInvertsSplit(s: string, c: char)
    ensures JoinOn(SplitOn(s, c), c) == s
    decreases |s|
  {
    hide JoinOn;
    if Contains(s, c) {
      var i := IndexOf(s, c);
      JoinInvertsSplit(s[i + 1..], c);
      JoinCons(s[..i], SplitOn(s[i + 1..], c), c);
      assert s == s[..i] + [c] + s[i + 1..];
    } else {
      JoinOne(s, c);
    }
  }

  lemma JoinOne(s: string, c: char)
    ensures JoinOn([s], c) == s
  {
  }

  lemma TrimmedExactly(s: string)
    ensures Trim(s) == s <==> Trimmed(s)
  {
    TrimShrinks(s);
    TrimShrinks(TrimLeft(s));
    if Trimmed(s) {
      TrimPadded(s);
    }
  }

  lemma {:induction false} TrimShrinks(s: string)
    ensures |TrimLeft(s)| <= |s| && |TrimRight(s)| <= |s|
    ensures |TrimLeft(s)| == |s| ==> s == "" || !IsBlank(s[0])
    ensures |TrimRight(s)| == |s| ==> s == "" || !IsBlank(s[|s| - 1])
    decreases |s|
  {
    if s != "" {
      TrimShrinks(s[1..]);
      TrimShrinks(s[..|s| - 1]);
    }
  }

  lemma {:induction false} JoinEnds(paths: seq<string>)
    requires paths != [] && DeclaredPaths(paths)
    ensures JoinOn(paths, COMMA) != "" && JoinOn(paths, COMMA)[0] == '/'
    ensures var last := paths[|paths| - 1];
            last != "" && JoinOn(paths, COMMA)[|JoinOn(paths, COMMA)| - 1] == last[|last| - 1]
  {
    assert DeclaredPath(paths[|paths| - 1]) by {
      assert paths[|paths| - 1] in paths;
    }
    assert forall p :: p in paths ==> DeclaredPath(p);
    assert paths[0] in paths;
    if |paths| > 1 {
      JoinEnds(paths[1..]);
    }
  }

  predicate EndsInTab(paths: seq<string>) {
    paths != [] && (var last := paths[|paths| - 1]; last != "" && last[|last| - 1] == '\t')
  }

  /** The declared pattern excludes spaces but not tabs, so the paths come back exactly when
      the last one does not end in a tab. */
  lemma PathsReadExactly(paths: seq<string>)
    requires paths != [] && DeclaredPaths(paths)
    ensures SplitOn(Trim(JoinOn(paths, COMMA)), COMMA) == paths <==> !EndsInTab(paths)
  {
    var text := JoinOn(paths, COMMA);
    JoinEnds(paths);
    var last := paths[|paths| - 1];
    assert DeclaredPath(last) by {
      assert last in paths;
    }
    assert last[|last| - 1] !in [',', '\n', '\r', '#', ' '];
    TrimmedExactly(text);
    assert Trimmed(text) <==> !EndsInTab(paths);
    if Trimmed(text) {
      forall p | p in paths ensures !Contains(p, COMMA) {
        assert DeclaredPath(p);
      }
      SplitInvertsJoin(paths, COMMA);
    } else if SplitOn(Trim(text), COMMA) == paths {
      JoinInvertsSplit(Trim(text), COMMA);
    }
  }

  /** Printing and reading is the identity exactly on the configurations whose texts carry no
      surrounding blanks and whose last extra path does not end in a tab. */
  lemma RoundTripExactly(c: Conf)
    requires TextsOneLine(c) && DeclaredPaths(c.addonsPaths)
    ensures Decode(Serialized(c)) == Some(c) <==> TextsTrimmed(c) && !EndsInTab(c.addonsPaths)
  {
    DecodeSerialized(c);
    TrimmedExactly(c.adminPassword); TrimmedExactly(c.dataDir); TrimmedExactly(c.host);
    TrimmedExactly(c.user); TrimmedExactly(c.password); TrimmedExactly(c.name);
    if c.addonsPaths != [] {
      PathsReadExactly(c.addonsPaths);
    }
  }

  /** A path the declared pattern accepts and the file does not preserve. */
  lemma TabbedPathIsLost()
    ensures DeclaredPaths(["/a\t"]) && SplitOn(Trim(JoinOn(["/a\t"], COMMA)), COMMA) != ["/a\t"]
  {
    var paths := ["/a\t"];
    assert DeclaredPath(paths[0]);
    PathsReadExactly(paths);
  }

  lemma {:induction false} PrintLength(rows: seq<Row>, i: nat)
    requires i < |rows|
    ensures |Print(rows)| > |Render(rows[i])|
  {
    if i > 0 {
      PrintLength(rows[1..], i - 1);
    }
  }

  lemma PrintedIsNoValue(keys: seq<string>, c: Conf, k: nat)
    requires k < 18 && |keys| == 19
    ensures |Print(Rows(keys, c))| > |ValueAt(c, k)|
  {
    hide ValueAt;
    var rows := Rows(keys, c);
    PrintLength(rows, RowOf(k));
    assert rows[RowOf(k)] == RowAt(keys, Values(c), RowOf(k));
  }

  lemma PrintedStart(keys: seq<string>, c: Conf)
    requires |keys| == 19
    ensures Print(Rows(keys, c)) != "" && Print(Rows(keys, c))[0] == '['
  {
    var rows := Rows(keys, c);
    assert rows[0] == RowAt(keys, Values(c), 0) && Render(rows[0]) == "[options]";
  }

  /** Whoever reads the file as a value never sees it settle: the printed file is longer than
      each value printed into it, and starts with a bracket. */
  lemma FileIsNoValue(c: Conf, k: nat)
    requires k < 18
    ensures |Serialized(c)| > |ValueAt(c, k)| && Serialized(c)[0] == '['
  {
    hide ValueAt, Rows, Print;
    PrintedIsNoValue(KEYS, c, k);
    PrintedStart(KEYS, c);
  }

  // ---- The file in the words of its format ----

  function Switch(b: bool): string {
    if b then "true" else "false"
  }

  /** The lines of the file. */
  function FileLines(c: Conf): seq<string> {
    ["[options]",
     "admin_passwd = " + c.adminPassword,
     "data_dir=" + c.dataDir,
     "",
     "db_host = " + c.host,
     "db_port = " + IntText(c.port),
     "db_user = " + c.user,
     "db_password = " + c.password,
     "db_maxconn = " + IntText(c.maxConn),
     "db_name= " + c.name,
     "",
     "debug_mode = " + Switch(c.debugMode),
     "without_demo = " + Switch(c.withoutDemo),
     "proxy_mode = " + Switch(c.proxyMode),
     "workers = " + IntText(c.workers),
     "limit_memory_soft = " + IntText(c.limitMemorySoft),
     "limit_memory_hard = " + IntText(c.limitMemoryHard),
     "limit_request = " + IntText(c.limitRequest),
     "limit_time_cpu = " + IntText(c.limitTimeCpu),
     "limit_time_real = " + IntText(c.limitTimeReal),
     "max_cron_threads = " + IntText(c.maxCronThreads)] +
    (if c.addonsPaths == [] then [] else ["addons_path = " + JoinOn(c.addonsPaths, ',')])
  }

  /** Lines, each ended by a newline. */
  function Ended(lines: seq<string>): string {
    if lines == [] then "" else lines[0] + "\n" + Ended(lines[1..])
  }

  lemma {:induction false} PrintedLines(rows: seq<Row>, lines: seq<string>)
    requires |rows| == |lines| && forall i :: 0 <= i < |rows| ==> Render(rows[i]) == lines[i]
    ensures Print(rows) == Ended(lines)
  {
    hide Render;
    if rows != [] {
      PrintedLines(rows[1..], lines[1..]);
    }
  }

  /** How the line of the k-th key starts. */
  const STARTS := [
    "admin_passwd = ", "data_dir=", "db_host = ", "db_port = ", "db_user = ", "db_password = ", "db_maxconn = ",
    "db_name= ", "debug_mode = ", "without_demo = ", "proxy_mode = ", "workers = ", "limit_memory_soft = ",
    "limit_memory_hard = ", "limit_request = ", "limit_time_cpu = ", "limit_time_real = ", "max_cron_threads = ",
    "addons_path = "]

  predicate StartsWell(keys: seq<string>, starts: seq<string>) {
    |keys| == 19 && |starts| == 19 &&
    forall k :: 0 <= k < 19 ==> starts[k] == keys[k] + Pad(k != 1 && k != 7) + [EQUALS] + Pad(k != 1)
  }

  lemma StartsOne()
    ensures forall k :: 0 <= k < 9 ==> STARTS[k] == KEYS[k] + Pad(k != 1 && k != 7) + [EQUALS] + Pad(k != 1)
  {
  }

  lemma StartsTwo()
    ensures forall k :: 9 <= k < 19 ==> STARTS[k] == KEYS[k] + Pad(k != 1 && k != 7) + [EQUALS] + Pad(k != 1)
  {
  }

  lemma LineText(keys: seq<string>, starts: seq<string>, c: Conf, i: nat)
    requires StartsWell(keys, starts) && i < |Rows(keys, c)| && i != 0 && i != 3 && i != 10
    ensures KeyOf(i) < 19
    ensures Render(Rows(keys, c)[i]) ==
            starts[KeyOf(i)] + if i < 21 then Values(c)[KeyOf(i)] else JoinOn(c.addonsPaths, COMMA)
  {
    RowsLaidOut(keys, c);
  }

  lemma FirstLines(c: Conf)
    ensures forall i :: 0 <= i < 9 && i != 0 && i != 3 && i != 10 ==>
              FileLines(c)[i] == STARTS[KeyOf(i)] + Values(c)[KeyOf(i)]
  {
    hide IntText, JoinOn;
  }

  lemma MiddleLines(c: Conf)
    ensures forall i :: 9 <= i < 15 && i != 0 && i != 3 && i != 10 ==>
              FileLines(c)[i] == STARTS[KeyOf(i)] + Values(c)[KeyOf(i)]
  {
    hide IntText, JoinOn;
  }

  lemma LastLines(c: Conf)
    ensures forall i :: 15 <= i < 21 && i != 0 && i != 3 && i != 10 ==>
              FileLines(c)[i] == STARTS[KeyOf(i)] + Values(c)[KeyOf(i)]
  {
    hide IntText, JoinOn;
  }

  /** The file, line by line. */
  lemma FileText(c: Conf)
    ensures Serialized(c) == Ended(FileLines(c))
  {
    hide IntText, JoinOn, Render, Print, Ended;
    StartsOne();
    StartsTwo();
    FirstLines(c);
    MiddleLines(c);
    LastLines(c);
    RowsLaidOut(KEYS, c);
    var rows, lines := Rows(KEYS, c), FileLines(c);
    forall i | 0 <= i < |rows| ensures Render(rows[i]) == lines[i] {
      if i == 0 || i == 3 || i == 10 {
        OtherLine(rows[i]);
      } else {
        LineText(KEYS, STARTS, c, i);
      }
    }
    PrintedLines(rows, lines);
  }

  lemma OtherLine(row: Row)
    ensures row.Blank? ==> Render(row) == ""
    ensures row.Header? ==> Render(row) == row.text
  {
  }

  // ---- The file read by key ----

  /** What a reader finds under each key: texts without surrounding blanks, numbers and switches as
      printed, and the joined paths if there are any. */
  ghost predicate Keyed(e: seq<(string, string)>, c: Conf) {
    Lookup(e, "admin_passwd") == Some(Trim(c.adminPassword)) &&
    Lookup(e, "data_dir") == Some(Trim(c.dataDir)) &&
    Lookup(e, "db_host") == Some(Trim(c.host)) &&
    Lookup(e, "db_port") == Some(IntText(c.port)) &&
    Lookup(e, "db_user") == Some(Trim(c.user)) &&
    Lookup(e, "db_password") == Some(Trim(c.password)) &&
    Lookup(e, "db_maxconn") == Some(IntText(c.maxConn)) &&
    Lookup(e, "db_name") == Some(Trim(c.name)) &&
    Lookup(e, "debug_mode") == Some(Switch(c.debugMode)) &&
    Lookup(e, "without_demo") == Some(Switch(c.withoutDemo)) &&
    Lookup(e, "proxy_mode") == Some(Switch(c.proxyMode)) &&
    Lookup(e, "workers") == Some(IntText(c.workers)) &&
    Lookup(e, "limit_memory_soft") == Some(IntText(c.limitMemorySoft)) &&
    Lookup(e, "limit_memory_hard") == Some(IntText(c.limitMemoryHard)) &&
    Lookup(e, "limit_request") == Some(IntText(c.limitRequest)) &&
    Lookup(e, "limit_time_cpu") == Some(IntText(c.limitTimeCpu)) &&
    Lookup(e, "limit_time_real") == Some(IntText(c.limitTimeReal)) &&
    Lookup(e, "max_cron_threads") == Some(IntText(c.maxCronThreads)) &&
    Lookup(e, "addons_path") ==
      (if c.addonsPaths == [] then None else Some(Trim(JoinOn(c.addonsPaths, ','))))
  }

  lemma SwitchTrimmed(b: bool)
    ensures Trim(BoolText(b)) == Switch(b)
  {
    assert Trimmed(BoolText(b));
    TrimPadded(BoolText(b));
  }

  lemma KeyedValues(c: Conf)
    requires TextsOneLine(c) && DeclaredPaths(c.addonsPaths)
    ensures Keyed(Read(Serialized(c)), c)
  {
    hide Read, Print, Lookup, Expected, Rows, GoodKeys, TextsOneLine, DeclaredPaths, Trim, JoinOn, IntText;
    GoodKeysHere();
    RowsReadable(KEYS, c);
    ReadPrinted(Rows(KEYS, c));
    var e := Expected(Rows(KEYS, c));
    FieldsRead(KEYS, c);
    ValuesHold(c);
    PathsEntry(KEYS, c);
    forall n: int ensures Trim(IntText(n)) == IntText(n) {
      NumbersOneLine(n);
      TrimPadded(IntText(n));
    }
    forall b: bool ensures Trim(BoolText(b)) == Switch(b) {
      SwitchTrimmed(b);
    }
  }
}
