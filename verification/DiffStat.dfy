/** Reading `git diff --numstat -z`: NUL-delimited records with tab-separated counts. */
module DiffStat {
  import opened Outcomes
  import opened Utf8

  const TAB: byte := 9
  const NUL: byte := 0
  const DASH: byte := 0x2D

  /** A file the diff touches: line counts (None for binary contents) and one or two paths. */
  datatype Change =
    | Edited(added: Option<nat>, deleted: Option<nat>, path: seq<byte>)
    | Renamed(added: Option<nat>, deleted: Option<nat>, source: seq<byte>, target: seq<byte>)

  /** The dictionary built for a record. Paths stay bytes: decoding them with surrogate escapes loses nothing. */
  datatype Entry = Entry(path: seq<byte>, display: seq<byte>, added: Option<nat>, deleted: Option<nat>, binary: bool)

  /** " => " */
  const ARROW: seq<byte> := [0x20, 0x3D, 0x3E, 0x20]

  function EntryOf(c: Change): Entry {
    match c
    case Edited(a, d, path) => Entry(path, path, a, d, a.None? || d.None?)
    case Renamed(a, d, source, target) => Entry(target, source + ARROW + target, a, d, a.None? || d.None?)
  }

  function EntriesOf(cs: seq<Change>): seq<Entry> {
    seq(|cs|, i requires 0 <= i < |cs| => EntryOf(cs[i]))
  }

  /** What git can print: no NUL inside a path, and an edited path is not empty. */
  predicate Printable(c: Change) {
    match c
    case Edited(_, _, path) => path != [] && NUL !in path
    case Renamed(_, _, source, target) => NUL !in source && NUL !in target
  }

  /** ---- printing ---- */

  function Digits(n: nat): seq<byte> {
    (if n < 10 then [] else Digits(n / 10)) + [0x30 + n % 10]
  }

  function PrintCount(c: Option<nat>): seq<byte> {
    if c.None? then [DASH] else Digits(c.value)
  }

  function PathsOf(c: Change): seq<byte> {
    match c
    case Edited(_, _, path) => path + [NUL]
    case Renamed(_, _, source, target) => [NUL] + (source + [NUL] + (target + [NUL]))
  }

  function Print(c: Change): seq<byte> {
    PrintCount(c.added) + [TAB] + (PrintCount(c.deleted) + [TAB] + PathsOf(c))
  }

  function PrintAll(cs: seq<Change>): seq<byte> {
    if cs == [] then [] else Print(cs[0]) + PrintAll(cs[1..])
  }

  /** ---- reading ---- */

  predicate Digit(b: byte) {
    0x30 <= b < 0x3A
  }

  function Value(digits: seq<byte>): nat
    requires forall i :: 0 <= i < |digits| ==> Digit(digits[i])
  {
    if digits == [] then 0
    else
      assert Digit(digits[|digits| - 1]);
      Value(digits[..|digits| - 1]) * 10 + (digits[|digits| - 1] as int - 0x30)
  }

  /** `None if text == "-" else int(text)` for the spellings git prints; any other raises. */
  function ReadCount(text: seq<byte>): Result<Option<nat>> {
    if text == [DASH] then Ok(None)
    else if text != [] && forall i :: 0 <= i < |text| ==> Digit(text[i]) then Ok(Some(Value(text)))
    else Raised
  }

  /** Nothing but a dash and decimal digits is read as a count. */
  lemma CountMeaning(text: seq<byte>)
    ensures ReadCount(text).Ok? <==> text == [0x2D] || (text != [] && forall b <- text :: 0x30 <= b < 0x3A)
    ensures ReadCount(text) == Ok(None) <==> text == [0x2D]
  {
    assert forall i :: 0 <= i < |text| ==> text[i] in text;
  }

  /** Before and after the first `b`, as find and slicing give them. */
  function Cut(s: seq<byte>, b: byte): Option<(seq<byte>, seq<byte>)> {
    if s == [] then None
    else if s[0] == b then Some(([], s[1..]))
    else
      var cut := Cut(s[1..], b);
      if cut.None? then None else Some(([s[0]] + cut.value.0, cut.value.1))
  }

  /** The paths of a record and what follows: two paths behind a NUL, else one. */
  function ReadPaths(s: seq<byte>): Result<((seq<byte>, seq<byte>), seq<byte>)> {
    if s == [] then Raised
    else if s[0] == NUL then
      var source := Cut(s[1..], NUL);
      if source.None? then Raised
      else
        var target := Cut(source.value.1, NUL);
        if target.None? then Raised
        else Ok(((target.value.0, source.value.0 + ARROW + target.value.0), target.value.1))
    else
      var path := Cut(s, NUL);
      if path.None? then Raised else Ok(((path.value.0, path.value.0), path.value.1))
  }

  /** One record and what follows it. */
  function ReadRecord(s: seq<byte>): Result<(Entry, seq<byte>)> {
    var added := Cut(s, TAB);
    if added.None? then Raised
    else
      var deleted := Cut(added.value.1, TAB);
      if deleted.None? then Raised
      else
        var paths := ReadPaths(deleted.value.1);
        if paths.Raised? then Raised
        else
          var a, d := ReadCount(added.value.0), ReadCount(deleted.value.0);
          if a.Raised? || d.Raised? then Raised
          else Ok((Entry(paths.value.0.0, paths.value.0.1, a.value, d.value, a.value.None? || d.value.None?), paths.value.1))
  }

  lemma {:induction false} CutShrinks(s: seq<byte>, b: byte)
    requires Cut(s, b).Some?
    ensures var (head, rest) := Cut(s, b).value; s == head + [b] + rest && b !in head
  {
    if s[0] != b { CutShrinks(s[1..], b); }
  }

  lemma RecordShrinks(s: seq<byte>)
    requires ReadRecord(s).Ok?
    ensures |ReadRecord(s).value.1| < |s|
  {
    CutShrinks(s, TAB);
    var s1 := Cut(s, TAB).value.1;
    CutShrinks(s1, TAB);
    var s2 := Cut(s1, TAB).value.1;
    if s2[0] == NUL {
      CutShrinks(s2[1..], NUL);
      CutShrinks(Cut(s2[1..], NUL).value.1, NUL);
    } else {
      CutShrinks(s2, NUL);
    }
  }

  function ReadAll(s: seq<byte>): Result<seq<Entry>>
    decreases |s|
  {
    if s == [] then Ok([])
    else
      var record := ReadRecord(s);
      if record.Raised? then Raised
      else
        RecordShrinks(s);
        var rest := ReadAll(record.value.1);
        if rest.Raised? then Raised else Ok([record.value.0] + rest.value)
  }

  /** ---- round trip ---- */

  lemma {:induction false} DigitsRead(n: nat)
    ensures Digits(n) != [] && (forall i :: 0 <= i < |Digits(n)| ==> Digit(Digits(n)[i]))
    ensures Value(Digits(n)) == n
    ensures TAB !in Digits(n)
  {
    if n >= 10 { DigitsRead(n / 10); }
    var front := if n < 10 then [] else Digits(n / 10);
    assert Digits(n)[..|Digits(n)| - 1] == front;
  }

  lemma CountRead(c: Option<nat>)
    ensures ReadCount(PrintCount(c)) == Ok(c) && TAB !in PrintCount(c)
  {
    if c.Some? {
      DigitsRead(c.value);
      assert Digit(Digits(c.value)[0]);
    }
  }

  /** Cutting a text that may have been cut off after n bytes. */
  lemma {:induction false} CutPrefix(a: seq<byte>, b: byte, rest: seq<byte>, n: nat)
    requires b !in a && n <= |a| + 1 + |rest|
    ensures Cut((a + [b] + rest)[..n], b) == if n <= |a| then None else Some((a, rest[..n - |a| - 1]))
  {
    var s := (a + [b] + rest)[..n];
    if n > 0 {
      if a == [] {
        assert s[1..] == rest[..n - 1];
      } else {
        assert s[1..] == (a[1..] + [b] + rest)[..n - 1];
        CutPrefix(a[1..], b, rest, n - 1);
        assert [a[0]] + a[1..] == a;
      }
    }
  }

  /** The paths of a printed record, cut off after n bytes: complete with all bytes, else refused. */
  lemma PathsPrefix(c: Change, rest: seq<byte>, n: nat)
    requires Printable(c) && n <= |PathsOf(c)| + |rest|
    ensures ReadPaths((PathsOf(c) + rest)[..n])
         == if n < |PathsOf(c)| then Raised
            else Ok(((EntryOf(c).path, EntryOf(c).display), rest[..n - |PathsOf(c)|]))
  {
    match c
    case Edited(_, _, path) => EditedPrefix(path, rest, n);
    case Renamed(_, _, source, target) => RenamedPrefix(source, target, rest, n);
  }

  lemma EditedPrefix(path: seq<byte>, rest: seq<byte>, n: nat)
    requires path != [] && NUL !in path && n <= |path| + 1 + |rest|
    ensures ReadPaths((path + [NUL] + rest)[..n])
         == if n <= |path| then Raised else Ok(((path, path), rest[..n - |path| - 1]))
  {
    CutPrefix(path, NUL, rest, n);
    if n > 0 { assert (path + [NUL] + rest)[..n][0] == path[0]; }
  }

  lemma RenamedPrefix(source: seq<byte>, target: seq<byte>, rest: seq<byte>, n: nat)
    requires NUL !in source && NUL !in target && n <= |source| + |target| + 3 + |rest|
    ensures ReadPaths(([NUL] + (source + [NUL] + (target + [NUL])) + rest)[..n])
         == if n < |source| + |target| + 3 then Raised
            else Ok(((target, source + ARROW + target), rest[..n - |source| - |target| - 3]))
  {
    hide Cut;
    var s := ([NUL] + (source + [NUL] + (target + [NUL])) + rest)[..n];
    if n > 0 {
      var tail := target + [NUL] + rest;
      assert s[1..] == (source + [NUL] + tail)[..n - 1];
      CutPrefix(source, NUL, tail, n - 1);
      if n - 1 > |source| { CutPrefix(target, NUL, rest, n - 2 - |source|); }
    }
  }

  /** A printed record, cut off after n bytes: read back when all of it is there, else refused. */
  lemma RecordPrefix(c: Change, rest: seq<byte>, n: nat)
    requires Printable(c) && n <= |Print(c)| + |rest|
    ensures ReadRecord((Print(c) + rest)[..n])
         == if n < |Print(c)| then Raised else Ok((EntryOf(c), rest[..n - |Print(c)|]))
  {
    hide ReadPaths, ReadCount, PathsOf;
    var a, d := PrintCount(c.added), PrintCount(c.deleted);
    CountRead(c.added);
    CountRead(c.deleted);
    var s2 := PathsOf(c) + rest;
    var s1 := d + [TAB] + s2;
    assert Print(c) + rest == a + [TAB] + s1;
    CutPrefix(a, TAB, s1, n);
    if n > |a| {
      var n1 := n - |a| - 1;
      CutPrefix(d, TAB, s2, n1);
      if n1 > |d| {
        PathsPrefix(c, rest, n1 - |d| - 1);
      }
    }
  }

  lemma RecordRead(c: Change, rest: seq<byte>)
    requires Printable(c)
    ensures ReadRecord(Print(c) + rest) == Ok((EntryOf(c), rest))
  {
    RecordPrefix(c, rest, |Print(c)| + |rest|);
    assert (Print(c) + rest)[..|Print(c)| + |rest|] == Print(c) + rest;
    assert rest[..|rest|] == rest;
  }

  /** Reading what git prints gives the changes back, whatever tabs the paths hold. */
  lemma {:induction false} RoundTrip(cs: seq<Change>)
    requires forall c <- cs :: Printable(c)
    ensures ReadAll(PrintAll(cs)) == Ok(EntriesOf(cs))
  {
    hide Print, ReadRecord;
    if cs != [] {
      PrintIsNotEmpty(cs[0]);
      RecordRead(cs[0], PrintAll(cs[1..]));
      RoundTrip(cs[1..]);
      assert EntriesOf(cs) == [EntryOf(cs[0])] + EntriesOf(cs[1..]);
    }
  }

  /** An edited file of ten and two lines, a binary one, and a renamed one: as printed, and as listed. */
  lemma PrintedExamples()
    ensures Print(Edited(Some(10), Some(2), [0x61])) == [0x31, 0x30, 9, 0x32, 9, 0x61, 0]
    ensures Print(Edited(None, None, [0x62])) == [0x2D, 9, 0x2D, 9, 0x62, 0]
    ensures Print(Renamed(Some(0), Some(0), [0x63], [0x64])) == [0x30, 9, 0x30, 9, 0, 0x63, 0, 0x64, 0]
    ensures EntryOf(Edited(Some(10), Some(2), [0x61])) == Entry([0x61], [0x61], Some(10), Some(2), false)
    ensures EntryOf(Edited(None, None, [0x62])) == Entry([0x62], [0x62], None, None, true)
    ensures EntryOf(Renamed(Some(0), Some(0), [0x63], [0x64])) == Entry([0x64], [0x63, 0x20, 0x3D, 0x3E, 0x20, 0x64], Some(0), Some(0), false)
  {
    assert Digits(10) == [0x31, 0x30] by { assert Digits(1) == [0x31]; }
  }

  lemma PrintIsNotEmpty(c: Change)
    ensures Print(c) != []
  {
  }

  /** Output cut off anywhere: read as a shorter list exactly at the end of a record, refused elsewhere. */
  lemma {:induction false} CutOutput(cs: seq<Change>, n: nat)
    requires (forall c <- cs :: Printable(c)) && n <= |PrintAll(cs)|
    ensures ReadAll(PrintAll(cs)[..n]).Ok? <==> exists k :: 0 <= k <= |cs| && n == |PrintAll(cs[..k])|
    ensures forall k :: 0 <= k <= |cs| && n == |PrintAll(cs[..k])| ==> ReadAll(PrintAll(cs)[..n]) == Ok(EntriesOf(cs[..k]))
  {
    forall k | 0 <= k <= |cs| && n == |PrintAll(cs[..k])| ensures ReadAll(PrintAll(cs)[..n]) == Ok(EntriesOf(cs[..k])) {
      PrintPrefix(cs, k);
      RoundTrip(cs[..k]);
    }
    if ReadAll(PrintAll(cs)[..n]).Ok? {
      var _ := OnlyAtTheEnd(cs, n);
    }
  }

  lemma {:induction false} PrintPrefix(cs: seq<Change>, k: nat)
    requires k <= |cs|
    ensures |PrintAll(cs[..k])| <= |PrintAll(cs)| && PrintAll(cs)[..|PrintAll(cs[..k])|] == PrintAll(cs[..k])
  {
    hide Print;
    if k > 0 {
      PrintPrefix(cs[1..], k - 1);
      assert cs[..k][1..] == cs[1..][..k - 1];
    }
  }

  lemma {:induction false} OnlyAtTheEnd(cs: seq<Change>, n: nat) returns (k: nat)
    requires (forall c <- cs :: Printable(c)) && n <= |PrintAll(cs)|
    requires ReadAll(PrintAll(cs)[..n]).Ok?
    ensures k <= |cs| && n == |PrintAll(cs[..k])|
  {
    if n == 0 {
      return 0;
    }
    var rest := PrintAll(cs[1..]);
    RecordPrefix(cs[0], rest, n);
    var k' := OnlyAtTheEnd(cs[1..], n - |Print(cs[0])|);
    k := k' + 1;
    assert cs[..k][1..] == cs[1..][..k'];
  }

  /** ---- the cursor loop ---- */

  /** bytes.find from a position, -1 when there is none. */
  method Find(s: seq<byte>, b: byte, from: nat) returns (at: int)
    requires from <= |s|
    ensures at == -1 <==> Cut(s[from..], b).None?
    ensures at != -1 ==> from <= at < |s| && Cut(s[from..], b) == Some((s[from..at], s[at + 1..]))
  {
    at := from;
    while at < |s| && s[at] != b
      invariant from <= at <= |s|
      invariant b !in s[from..at]
    {
      at := at + 1;
    }
    if at == |s| {
      assert s[from..at] == s[from..];
      CutAbsent(s[from..], b);
      return -1;
    }
    assert s[from..] == s[from..at] + [b] + s[at + 1..];
    CutPrefix(s[from..at], b, s[at + 1..], |s| - from);
    assert s[from..][..|s| - from] == s[from..];
    assert s[at + 1..][..|s| - at - 1] == s[at + 1..];
  }

  lemma {:induction false} CutAbsent(s: seq<byte>, b: byte)
    requires b !in s
    ensures Cut(s, b) == None
  {
    if s != [] { CutAbsent(s[1..], b); }
  }

  /** The record at the cursor, and the cursor behind it. */
  method RecordAt(output: seq<byte>, start: nat) returns (r: Result<(Entry, nat)>)
    requires start < |output|
    ensures r.Raised? <==> ReadRecord(output[start..]).Raised?
    ensures r.Ok? ==> start < r.value.1 <= |output|
    ensures r.Ok? ==> ReadRecord(output[start..]) == Ok((r.value.0, output[r.value.1..]))
  {
    var firstTab := Find(output, TAB, start);
    if firstTab == -1 {
      return Raised;
    }
    var secondTab := Find(output, TAB, firstTab + 1);
    if secondTab == -1 {
      return Raised;
    }
    var paths := PathsAt(output, secondTab + 1);
    if paths.Raised? {
      return Raised;
    }
    var added, deleted := ReadCount(output[start..firstTab]), ReadCount(output[firstTab + 1..secondTab]);
    if added.Raised? || deleted.Raised? {
      return Raised;
    }
    r := Ok((Entry(paths.value.0.0, paths.value.0.1, added.value, deleted.value, added.value.None? || deleted.value.None?),
             paths.value.1));
  }

  method PathsAt(output: seq<byte>, start: nat) returns (r: Result<((seq<byte>, seq<byte>), nat)>)
    requires start <= |output|
    ensures r.Raised? <==> ReadPaths(output[start..]).Raised?
    ensures r.Ok? ==> start < r.value.1 <= |output|
    ensures r.Ok? ==> ReadPaths(output[start..]) == Ok((r.value.0, output[r.value.1..]))
  {
    if start >= |output| {
      return Raised;
    }
    if output[start] == NUL {
      assert output[start..][1..] == output[start + 1..];
      var sourceEnd := Find(output, NUL, start + 1);
      if sourceEnd == -1 {
        return Raised;
      }
      var targetEnd := Find(output, NUL, sourceEnd + 1);
      if targetEnd == -1 {
        return Raised;
      }
      var target := output[sourceEnd + 1..targetEnd];
      return Ok(((target, output[start + 1..sourceEnd] + ARROW + target), targetEnd + 1));
    }
    var end := Find(output, NUL, start);
    if end == -1 {
      return Raised;
    }
    r := Ok(((output[start..end], output[start..end]), end + 1));
  }

  /** collect_changed_files: the cursor strictly advances to the end, and the entries are those of `ReadAll`. */
  method CollectChangedFiles(output: seq<byte>) returns (r: Result<seq<Entry>>)
    ensures r == ReadAll(output)
  {
    hide ReadRecord;
    var changed: seq<Entry> := [];
    var cursor := 0;
    assert output[0..] == output;
    assert ReadAll(output).Ok? ==> [] + ReadAll(output).value == ReadAll(output).value;
    while cursor < |output|
      invariant 0 <= cursor <= |output|
      invariant ReadAll(output)
             == var rest := ReadAll(output[cursor..]); if rest.Raised? then Raised else Ok(changed + rest.value)
      decreases |output| - cursor
    {
      var record := RecordAt(output, cursor);
      if record.Raised? {
        return Raised;
      }
      var rest := ReadAll(output[record.value.1..]);
      if rest.Ok? {
        assert changed + ([record.value.0] + rest.value) == (changed + [record.value.0]) + rest.value;
      }
      changed := changed + [record.value.0];
      cursor := record.value.1;
    }
    assert output[cursor..] == [] && changed + [] == changed;
    r := Ok(changed);
  }
}
