/** Checksum manifests as text: what the runtime writes, what the inspection reads, and when
    the two agree. */
module ManifestFile {
  import opened Domain
  import opened Records
  import opened Sequences
  import opened Protocol
  import opened Text
  import Constraints

  // ------------------------------------------------------------ one line

  predicate IsHex(c: char) { '0' <= c <= '9' || 'a' <= c <= 'f' || 'A' <= c <= 'F' }

  predicate LowerHex(t: string) { forall i :: 0 <= i < |t| ==> '0' <= t[i] <= '9' || 'a' <= t[i] <= 'f' }

  /** `casefold` of hexadecimal digits. */
  function Lower(t: string): (r: string)
    ensures |r| == |t| && (LowerHex(t) ==> r == t)
  {
    if t == "" then ""
    else [if 'A' <= t[0] <= 'F' then (t[0] as int + 32) as char else t[0]] + Lower(t[1..])
  }

  predicate Spaceless(t: string) { forall i :: 0 <= i < |t| ==> !IsSpace(t[i]) }

  /** `re.fullmatch(r"([0-9A-Fa-f]{64})\s+\*?([^\s]+)", line)`: its two groups. */
  function MatchLine(line: string): Option<(string, string)> {
    if |line| < 65 || !AllHex(line[..64]) || !IsSpace(line[64]) then None
    else
      var rest := LStrip(line[64..]);
      if rest == "" || !Spaceless(rest) then None
      else if rest[0] == '*' && |rest| > 1 then Some((line[..64], rest[1..]))
      else Some((line[..64], rest))
  }

  predicate AllHex(t: string) { forall i :: 0 <= i < |t| ==> IsHex(t[i]) }

  lemma GapNotEmpty(gap: string, rest: string)
    requires rest != "" && !IsSpace(rest[0]) && IsSpace((gap + rest)[0])
    ensures gap != ""
  {
    hide IsSpace;
    assert "" + rest == rest;
  }

  /** The pattern, read off: a match splits the line into digits, spaces, perhaps a star, and
      a name without spaces. */
  lemma MatchMeaning(line: string) returns (gap: string, star: string)
    requires MatchLine(line).Some?
    ensures var hash, name := MatchLine(line).value.0, MatchLine(line).value.1;
            && |hash| == 64 && AllHex(hash) && name != "" && Spaceless(name)
            && gap != "" && Blank(gap) && (star == "" || star == "*") && line == hash + (gap + (star + name))
  {
    hide IsSpace, IsHex, LStrip, Blank;
    var tail := line[64..];
    var rest := LStrip(tail);
    gap := LStripIsSuffix(tail);
    star := if rest[0] == '*' && |rest| > 1 then "*" else "";
    assert tail[0] == line[64];
    GapNotEmpty(gap, rest);
    assert rest == star + MatchLine(line).value.1;
    assert line == line[..64] + tail;
  }

  /** The converse: every such line matches. A star before more of a name is taken for the
      mark. */
  lemma ShapedMatches(hash: string, gap: string, star: string, name: string)
    requires |hash| == 64 && AllHex(hash) && gap != "" && Blank(gap) && (star == "" || star == "*")
    requires name != "" && Spaceless(name)
    ensures MatchLine(hash + (gap + (star + name))) ==
            Some((hash, if star == "" && name[0] == '*' && |name| > 1 then name[1..] else name))
  {
    var line := hash + (gap + (star + name));
    assert line[..64] == hash && line[64..] == gap + (star + name) && line[64] == gap[0];
    hide IsSpace, IsHex, LStrip, Spaceless;
    StarIsNoSpace(name);
    FirstIsNoSpace("*" + name);
    FirstIsNoSpace(name);
    assert star == "*" ==> (star + name)[1..] == name;
    assert star == "" ==> star + name == name;
    LStripBlank(gap, star + name);
  }

  lemma FirstIsNoSpace(name: string)
    requires Spaceless(name) && name != ""
    ensures !IsSpace(name[0])
  {}

  lemma HexDigits(c: char)
    ensures IsHex(c) <==> c in "0123456789abcdefABCDEF"
  {}

  /** The letters become small, the digits stay. */
  lemma {:induction false} LowerAt(t: string, i: nat, k: nat)
    requires i < |t| && k < 6
    ensures t[i] == "ABCDEF"[k] ==> Lower(t)[i] == "abcdef"[k]
    ensures t[i] !in "ABCDEF" ==> Lower(t)[i] == t[i]
  {
    if i > 0 {
      LowerAt(t[1..], i - 1, k);
    }
  }

  /** `_safe_manifest_name`. */
  predicate SafeName(name: string) { !PathSyntax(name) }

  predicate PlainName(name: string) { name != "" && Spaceless(name) && SafeName(name) }

  // ------------------------------------------------------------ reading

  /** One line of the loop: a blank line adds nothing; `None` is MANIFEST_MALFORMED. */
  function ReadLine(line: string, entries: map<string, string>): Option<map<string, string>> {
    if Blank(line) then Some(entries)
    else
      match MatchLine(line)
      case None => None
      case Some(groups) =>
        if !SafeName(groups.1) || groups.1 in entries then None
        else Some(entries[groups.1 := Lower(groups.0)])
  }

  function ReadLines(lines: seq<string>, entries: map<string, string>): Option<map<string, string>>
    decreases |lines|
  {
    if lines == [] then Some(entries)
    else
      match ReadLine(lines[0], entries)
      case None => None
      case Some(more) => ReadLines(lines[1..], more)
  }

  function Names(assets: seq<RuntimeAsset>): set<string> { set item | item in assets :: item.asset.filename }

  /** SHA-256 in hexadecimal: 64 digits, lower case. */
  ghost predicate Hexadecimal(hex: Digest -> string) {
    forall d: Digest :: |hex(d)| == 64 && LowerHex(hex(d))
  }

  /** No file at hand collides with its recorded hash. */
  predicate NoCollision(assets: seq<RuntimeAsset>, files: Files, hex: Digest -> string) {
    forall i :: 0 <= i < |assets| && assets[i].path in files ==>
      hex(Sha256(files[assets[i].path])) == hex(assets[i].asset.sha256) ==>
      Sha256(files[assets[i].path]) == assets[i].asset.sha256
  }

  /** The file is there, under its name, with the content hash the manifest gives. */
  predicate EntryHolds(item: RuntimeAsset, entries: map<string, string>, files: Files, hex: Digest -> string) {
    && item.path in files && item.asset.filename in entries
    && entries[item.asset.filename] == hex(Sha256(files[item.path]))
  }

  predicate EntriesHold(assets: seq<RuntimeAsset>, entries: map<string, string>, files: Files, hex: Digest -> string) {
    entries.Keys == Names(assets) && forall i :: 0 <= i < |assets| ==> EntryHolds(assets[i], entries, files, hex)
  }

  datatype Verification = Absent | Unreadable | Malformed | Checked(matches: bool)

  /** `verify_manifest` on the text of the one manifest: it reports a match exactly when the
      entries are the package's names, each with the hash of the file that is there. */
  function Verify(text: string, assets: seq<RuntimeAsset>, files: Files, hex: Digest -> string): Verification {
    match ReadLines(SplitLines(text), map[])
    case None => Malformed
    case Some(entries) => Checked(EntriesHold(assets, entries, files, hex))
  }

  /** Its loops, over the lines and over the package. */
  method VerifyText(text: string, assets: seq<RuntimeAsset>, files: Files, hex: Digest -> string)
    returns (r: Verification)
    ensures r == Verify(text, assets, files, hex)
  {
    hide SplitLines, MatchLine, SafeName, Blank, IsSpace, Lower, EntryHolds, Names;
    var lines := SplitLines(text);
    var entries: map<string, string> := map[];
    for i := 0 to |lines|
      invariant ReadLines(lines, map[]) == ReadLines(lines[i..], entries)
    {
      if !Blank(lines[i]) {
        var groups := MatchLine(lines[i]);
        if groups.None? || !SafeName(groups.value.1) || groups.value.1 in entries {
          return Malformed;
        }
        entries := entries[groups.value.1 := Lower(groups.value.0)];
      }
      assert lines[i..][1..] == lines[i + 1..];
    }
    var matches := entries.Keys == Names(assets);
    for i := 0 to |assets|
      invariant matches <==>
        entries.Keys == Names(assets) && forall k :: 0 <= k < i ==> EntryHolds(assets[k], entries, files, hex)
    {
      EntryIs(assets[i], entries, files, hex);
      if assets[i].path !in files {
        matches := false;
      } else {
        matches := matches && assets[i].asset.filename in entries
                   && entries[assets[i].asset.filename] == hex(Sha256(files[assets[i].path]));
      }
    }
    return Checked(matches);
  }

  lemma EntryIs(item: RuntimeAsset, entries: map<string, string>, files: Files, hex: Digest -> string)
    ensures EntryHolds(item, entries, files, hex) <==>
            && item.path in files && item.asset.filename in entries
            && entries[item.asset.filename] == hex(Sha256(files[item.path]))
  {}

  predicate IsManifest(item: RuntimeAsset) { item.asset.role.Manifest? }

  function Package(assets: seq<RuntimeAsset>): seq<RuntimeAsset> { Select(assets, item => !IsManifest(item)) }

  /** `verify_manifest` on the assets it is given: there must be exactly one manifest, and its
      file must be there and decode. */
  function VerifyPackage(assets: seq<RuntimeAsset>, files: Files, decode: Content -> Option<string>,
                         hex: Digest -> string): Verification {
    var manifests := Select(assets, IsManifest);
    if |manifests| != 1 || manifests[0].path !in files then Absent
    else
      match decode(files[manifests[0].path])
      case None => Unreadable
      case Some(text) => Verify(text, Package(assets), files, hex)
  }

  /** `verify_manifest`. */
  method VerifyManifest(assets: seq<RuntimeAsset>, files: Files, decode: Content -> Option<string>,
                        hex: Digest -> string)
    returns (r: Verification)
    ensures r == VerifyPackage(assets, files, decode, hex)
  {
    hide Verify;
    var manifests := Select(assets, IsManifest);
    if |manifests| != 1 || manifests[0].path !in files {
      return Absent;
    }
    var text := decode(files[manifests[0].path]);
    if text.None? {
      return Unreadable;
    }
    r := VerifyText(text.value, Package(assets), files, hex);
  }

  // ------------------------------------------------------------ writing

  function LineText(line: ManifestLine, hex: Digest -> string): string { hex(line.sha256) + " *" + line.filename }

  function LineTexts(lines: seq<ManifestLine>, hex: Digest -> string): seq<string> {
    if lines == [] then [] else [LineText(lines[0], hex)] + LineTexts(lines[1..], hex)
  }

  function Terminate(lines: seq<string>): string {
    if lines == [] then "" else lines[0] + "\n" + Terminate(lines[1..])
  }

  /** The text `_manifest_text` writes for the given lines. */
  function TextOf(lines: seq<ManifestLine>, hex: Digest -> string): string { Terminate(LineTexts(lines, hex)) }

  lemma {:induction false} SplitTerminated(lines: seq<string>)
    requires forall i :: 0 <= i < |lines| ==> OneLine(lines[i])
    ensures SplitLines(Terminate(lines)) == lines
  {
    hide IsBreak;
    if lines != [] {
      var rest := Terminate(lines[1..]);
      var t := Terminate(lines);
      FirstBreakOf(lines[0], rest);
      SplitTerminated(lines[1..]);
      assert t[..|lines[0]|] == lines[0] && t[|lines[0]| + 1..] == rest && t[|lines[0]|] == '\n';
      assert lines == [lines[0]] + lines[1..];
    }
  }

  lemma HexIsPlain(c: char)
    ensures ('0' <= c <= '9' || 'a' <= c <= 'f') ==> IsHex(c) && !IsSpace(c) && !IsBreak(c)
    ensures IsSpace(' ') && !IsSpace('*') && !IsBreak(' ') && !IsBreak('*')
  {}

  /** The pattern on digits, a space, a star and a name. */
  lemma MatchesWritten(hash: string, name: string)
    requires |hash| == 64 && LowerHex(hash) && name != "" && Spaceless(name)
    ensures MatchLine(hash + " *" + name) == Some((hash, name))
  {
    HexIsPlain('0');
    hide IsSpace, IsHex, MatchLine, AllHex, Spaceless, LowerHex;
    AllHexWritten(hash);
    ShapedMatches(hash, " ", "*", name);
    assert hash + " *" + name == hash + (" " + ("*" + name));
  }

  lemma AllHexWritten(hash: string)
    requires LowerHex(hash)
    ensures AllHex(hash)
  {
    hide IsSpace, IsBreak, IsHex;
    forall i | 0 <= i < |hash| ensures IsHex(hash[i]) {
      HexIsPlain(hash[i]);
    }
  }

  lemma StarIsNoSpace(name: string)
    requires Spaceless(name)
    ensures Spaceless("*" + name)
  {
    HexIsPlain('0');
    hide IsSpace;
    var starred := "*" + name;
    assert forall i :: 0 < i < |starred| ==> starred[i] == name[i - 1];
  }

  lemma WrittenIsOneLine(hash: string, name: string)
    requires |hash| == 64 && LowerHex(hash) && Spaceless(name)
    ensures OneLine(hash + " *" + name) && !Blank(hash + " *" + name)
  {
    hide IsSpace, IsBreak, IsHex;
    var text := hash + " *" + name;
    HexIsPlain(hash[0]);
    assert text[0] == hash[0];
    forall i | 0 <= i < |text| ensures !IsBreak(text[i]) {
      if i < 64 {
        HexIsPlain(hash[i]);
        assert text[i] == hash[i];
      } else if i >= 66 {
        assert text[i] == name[i - 66];
        BreaksAreSpaces(text[i]);
      }
    }
  }

  predicate DistinctNames(lines: seq<ManifestLine>) {
    forall i, j :: 0 <= i < j < |lines| ==> lines[i].filename != lines[j].filename
  }

  predicate PlainNames(lines: seq<ManifestLine>) { forall i :: 0 <= i < |lines| ==> PlainName(lines[i].filename) }

  /** The entries once the lines are added. */
  function Extended(entries: map<string, string>, lines: seq<ManifestLine>, hex: Digest -> string): map<string, string>
    decreases |lines|
  {
    if lines == [] then entries else Extended(entries[lines[0].filename := hex(lines[0].sha256)], lines[1..], hex)
  }

  predicate Unused(lines: seq<ManifestLine>, entries: map<string, string>) {
    forall i :: 0 <= i < |lines| ==> lines[i].filename !in entries
  }

  /** Reading written lines with plain names: each adds its entry, and a name that comes twice
      is refused. */
  lemma {:induction false} WrittenReads(lines: seq<ManifestLine>, hex: Digest -> string, entries: map<string, string>)
    requires Hexadecimal(hex) && PlainNames(lines)
    ensures ReadLines(LineTexts(lines, hex), entries) ==
            if DistinctNames(lines) && Unused(lines, entries) then Some(Extended(entries, lines, hex)) else None
    decreases |lines|
  {
    hide IsSpace, SafeName, MatchLine, Lower;
    if lines != [] {
      var first, rest := lines[0], lines[1..];
      assert PlainName(first.filename);
      MatchesWritten(hex(first.sha256), first.filename);
      WrittenIsOneLine(hex(first.sha256), first.filename);
      assert forall i :: 0 <= i < |rest| ==> rest[i] == lines[i + 1];
      assert LineTexts(lines, hex)[1..] == LineTexts(rest, hex);
      if first.filename !in entries {
        WrittenReads(rest, hex, entries[first.filename := hex(first.sha256)]);
        UnusedStep(lines, entries, hex(first.sha256));
      }
    }
  }

  lemma UnusedStep(lines: seq<ManifestLine>, entries: map<string, string>, hash: string)
    requires lines != [] && lines[0].filename !in entries
    ensures DistinctNames(lines) && Unused(lines, entries) <==>
            DistinctNames(lines[1..]) && Unused(lines[1..], entries[lines[0].filename := hash])
  {
    var rest := lines[1..];
    assert forall i :: 0 <= i < |rest| ==> rest[i] == lines[i + 1];
    assert forall i :: 0 < i < |lines| ==> lines[i] == rest[i - 1];
  }

  function LineNames(lines: seq<ManifestLine>): set<string> { set line | line in lines :: line.filename }

  lemma {:induction false} ExtendedMeaning(entries: map<string, string>, lines: seq<ManifestLine>,
                                           hex: Digest -> string)
    requires DistinctNames(lines) && Unused(lines, entries)
    ensures var r := Extended(entries, lines, hex);
            && r.Keys == entries.Keys + LineNames(lines)
            && (forall name :: name in entries ==> r[name] == entries[name])
            && (forall i :: 0 <= i < |lines| ==> lines[i].filename in r && r[lines[i].filename] == hex(lines[i].sha256))
    decreases |lines|
  {
    if lines != [] {
      var first, rest := lines[0], lines[1..];
      UnusedStep(lines, entries, hex(first.sha256));
      ExtendedMeaning(entries[first.filename := hex(first.sha256)], rest, hex);
      assert forall i :: 0 < i < |lines| ==> lines[i] == rest[i - 1];
      assert LineNames(lines) == {first.filename} + LineNames(rest);
    }
  }

  // ------------------------------------------------------------ write and verify agree

  lemma {:induction false} InsertSame(item: RuntimeAsset, sorted: seq<RuntimeAsset>)
    ensures multiset(InsertByName(item, sorted)) == multiset(sorted) + multiset{item}
  {
    if sorted != [] && Constraints.StringLess(sorted[0].asset.filename, item.asset.filename) {
      InsertSame(item, sorted[1..]);
      assert sorted == [sorted[0]] + sorted[1..];
    }
  }

  lemma {:induction false} SortSame(items: seq<RuntimeAsset>)
    ensures multiset(SortByName(items)) == multiset(items) && |SortByName(items)| == |items|
  {
    if items != [] {
      SortSame(items[1..]);
      InsertSame(items[0], SortByName(items[1..]));
      assert items == [items[0]] + items[1..];
      assert |multiset(SortByName(items))| == |multiset(items)|;
    }
  }

  /** In ascending order of names. */
  predicate NamesAscend(items: seq<RuntimeAsset>) {
    forall i, j :: 0 <= i < j < |items| ==>
      !Constraints.StringLess(items[j].asset.filename, items[i].asset.filename)
  }

  lemma NamesAscendCons(first: RuntimeAsset, rest: seq<RuntimeAsset>)
    requires NamesAscend(rest)
    requires rest != [] ==> !Constraints.StringLess(rest[0].asset.filename, first.asset.filename)
    ensures NamesAscend([first] + rest)
  {
    var all := [first] + rest;
    forall i, j | 0 <= i < j < |all|
      ensures !Constraints.StringLess(all[j].asset.filename, all[i].asset.filename)
    {
      assert all[j] == rest[j - 1];
      if i > 0 {
        assert all[i] == rest[i - 1];
      } else {
        Constraints.LessIsOrder(first.asset.filename, rest[0].asset.filename, rest[j - 1].asset.filename);
      }
    }
  }

  lemma {:induction false} InsertAscends(item: RuntimeAsset, sorted: seq<RuntimeAsset>)
    requires NamesAscend(sorted)
    ensures NamesAscend(InsertByName(item, sorted))
    ensures InsertByName(item, sorted)[0] == item || (sorted != [] && InsertByName(item, sorted)[0] == sorted[0])
  {
    hide NamesAscend;
    if sorted != [] && Constraints.StringLess(sorted[0].asset.filename, item.asset.filename) {
      var more := InsertByName(item, sorted[1..]);
      AscendTail(sorted);
      InsertAscends(item, sorted[1..]);
      Constraints.LessIsOrder(sorted[0].asset.filename, item.asset.filename, item.asset.filename);
      NamesAscendCons(sorted[0], more);
    } else {
      NamesAscendCons(item, sorted);
    }
  }

  lemma AscendTail(sorted: seq<RuntimeAsset>)
    requires NamesAscend(sorted) && sorted != []
    ensures NamesAscend(sorted[1..])
    ensures |sorted| > 1 ==> !Constraints.StringLess(sorted[1].asset.filename, sorted[0].asset.filename)
  {}

  /** Those of one name, in order. */
  function OfName(items: seq<RuntimeAsset>, name: string): seq<RuntimeAsset> {
    Select(items, (item: RuntimeAsset) => item.asset.filename == name)
  }

  lemma OfNameCons(first: RuntimeAsset, rest: seq<RuntimeAsset>, name: string)
    ensures OfName([first] + rest, name) ==
      (if first.asset.filename == name then [first] else []) + OfName(rest, name)
  {
    assert ([first] + rest)[1..] == rest;
  }

  lemma {:induction false} InsertKeepsOrder(item: RuntimeAsset, sorted: seq<RuntimeAsset>, name: string)
    ensures OfName(InsertByName(item, sorted), name) == OfName([item] + sorted, name)
  {
    hide OfName;
    if sorted != [] && Constraints.StringLess(sorted[0].asset.filename, item.asset.filename) {
      var first, rest := sorted[0], sorted[1..];
      InsertKeepsOrder(item, rest, name);
      Constraints.LessIsOrder(first.asset.filename, item.asset.filename, item.asset.filename);
      OfNameCons(first, InsertByName(item, rest), name);
      OfNameCons(first, rest, name);
      OfNameCons(item, rest, name);
      OfNameCons(item, sorted, name);
      assert sorted == [first] + rest;
    }
  }

  /** The lines come in ascending order of file names; those of one name in the order of the
      record; and each leaf that is no manifest has its line. */
  lemma {:induction false} SortedByName(items: seq<RuntimeAsset>, name: string)
    ensures NamesAscend(SortByName(items)) && OfName(SortByName(items), name) == OfName(items, name)
    ensures multiset(SortByName(items)) == multiset(items)
  {
    hide NamesAscend, InsertByName;
    SortSame(items);
    if items == [] {
      NothingAscends();
    } else {
      SortedByName(items[1..], name);
      InsertAscends(items[0], SortByName(items[1..]));
      InsertKeepsOrder(items[0], SortByName(items[1..]), name);
      assert ([items[0]] + SortByName(items[1..]))[1..] == SortByName(items[1..]);
    }
  }

  lemma NothingAscends()
    ensures NamesAscend([])
  {}

  lemma {:induction false} LinesOfAt(items: seq<RuntimeAsset>)
    ensures |LinesOf(items)| == |items| && forall i :: 0 <= i < |items| ==> LinesOf(items)[i] == LineOf(items[i])
  {
    if items != [] {
      LinesOfAt(items[1..]);
    }
  }

  function NamesInOrder(lines: seq<ManifestLine>): (r: seq<string>)
    ensures |r| == |lines| && forall i :: 0 <= i < |r| ==> r[i] == lines[i].filename
  {
    seq(|lines|, i requires 0 <= i < |lines| => lines[i].filename)
  }

  /** Distinctness is a matter of counting, so order does not matter. */
  lemma DistinctByCount(lines: seq<ManifestLine>)
    ensures DistinctNames(lines) <==> |LineNames(lines)| == |lines|
  {
    var names := NamesInOrder(lines);
    DistinctIsCounting(names);
    assert Distinct(names) <==> DistinctNames(lines);
    forall name ensures name in LineNames(lines) <==> name in names {
      if name in LineNames(lines) {
        var i :| 0 <= i < |lines| && lines[i].filename == name;
        assert names[i] == name;
      }
      if name in names {
        var i :| 0 <= i < |names| && names[i] == name;
        assert lines[i] in lines;
      }
    }
    assert LineNames(lines) == Elements(names);
  }

  /** The lines of the sorted leaves are those of the leaves, in another order. */
  lemma {:induction false} SortedLines(leaves: seq<RuntimeAsset>)
    ensures var lines := LinesOf(SortByName(leaves));
            && |lines| == |leaves| && LineNames(lines) == Names(leaves)
            && (forall i :: 0 <= i < |leaves| ==> LineOf(leaves[i]) in lines)
            && (forall line :: line in lines ==> exists i :: 0 <= i < |leaves| && LineOf(leaves[i]) == line)
            && (DistinctNames(lines) <==> DistinctNames(LinesOf(leaves)))
  {
    var sorted := SortByName(leaves);
    var lines := LinesOf(sorted);
    SortSame(leaves);
    LinesOfAt(sorted);
    LinesOfAt(leaves);
    forall i | 0 <= i < |leaves| ensures LineOf(leaves[i]) in lines {
      assert leaves[i] in multiset(leaves) && leaves[i] in multiset(sorted);
      var j :| 0 <= j < |sorted| && sorted[j] == leaves[i];
      assert lines[j] == LineOf(leaves[i]);
    }
    forall line | line in lines ensures exists i :: 0 <= i < |leaves| && LineOf(leaves[i]) == line {
      var j :| 0 <= j < |lines| && lines[j] == line;
      assert sorted[j] in multiset(sorted) && sorted[j] in multiset(leaves);
      var i :| 0 <= i < |leaves| && leaves[i] == sorted[j];
      assert LineOf(leaves[i]) == line;
    }
    SameNames(leaves, lines);
    SameNames(leaves, LinesOf(leaves));
    DistinctByCount(lines);
    DistinctByCount(LinesOf(leaves));
  }

  lemma SameNames(leaves: seq<RuntimeAsset>, lines: seq<ManifestLine>)
    requires forall i :: 0 <= i < |leaves| ==> LineOf(leaves[i]) in lines
    requires forall line :: line in lines ==> exists i :: 0 <= i < |leaves| && LineOf(leaves[i]) == line
    ensures LineNames(lines) == Names(leaves)
  {
    forall name | name in Names(leaves) ensures name in LineNames(lines) {
      var item :| item in leaves && item.asset.filename == name;
      var i :| 0 <= i < |leaves| && leaves[i] == item;
      assert LineOf(leaves[i]) in lines && LineOf(leaves[i]).filename == name;
    }
    forall name | name in LineNames(lines) ensures name in Names(leaves) {
      var line :| line in lines && line.filename == name;
      var i :| 0 <= i < |leaves| && LineOf(leaves[i]) == line;
      assert leaves[i] in leaves;
    }
  }

  predicate PlainKeys(entries: map<string, string>) { forall name :: name in entries ==> PlainName(name) }

  /** Whatever the text, every name that is read is plain. */
  lemma {:induction false} ReadNamesPlain(lines: seq<string>, entries: map<string, string>)
    requires PlainKeys(entries)
    ensures ReadLines(lines, entries).Some? ==> PlainKeys(ReadLines(lines, entries).value)
    decreases |lines|
  {
    hide IsSpace, SafeName, MatchLine, Lower, Blank, Spaceless;
    if lines != [] {
      var more := ReadLine(lines[0], entries);
      if more.Some? {
        if MatchLine(lines[0]).Some? {
          var _, _ := MatchMeaning(lines[0]);
        }
        ReadNamesPlain(lines[1..], more.value);
      }
    }
  }

  /** The leaves a manifest can speak for: distinct plain names, and files that hash as
      recorded. */
  predicate Listable(leaves: seq<RuntimeAsset>, files: Files) {
    && DistinctNames(LinesOf(leaves))
    && forall i :: 0 <= i < |leaves| ==> PlainName(leaves[i].asset.filename) && Intact(leaves[i], files)
  }

  lemma {:induction false} TextReads(lines: seq<ManifestLine>, hex: Digest -> string)
    requires Hexadecimal(hex) && PlainNames(lines)
    ensures ReadLines(SplitLines(TextOf(lines, hex)), map[]) ==
            if DistinctNames(lines) then Some(Extended(map[], lines, hex)) else None
  {
    hide IsSpace, IsBreak, SafeName, MatchLine, Lower, OneLine;
    WrittenOneLines(lines, hex);
    SplitTerminated(LineTexts(lines, hex));
    WrittenReads(lines, hex, map[]);
  }

  lemma {:induction false} WrittenOneLines(lines: seq<ManifestLine>, hex: Digest -> string)
    requires Hexadecimal(hex) && PlainNames(lines)
    ensures forall i :: 0 <= i < |LineTexts(lines, hex)| ==> OneLine(LineTexts(lines, hex)[i])
  {
    hide OneLine, SafeName, Spaceless;
    if lines != [] {
      assert PlainName(lines[0].filename);
      WrittenIsOneLine(hex(lines[0].sha256), lines[0].filename);
      assert forall i :: 0 <= i < |lines[1..]| ==> lines[1..][i] == lines[i + 1];
      WrittenOneLines(lines[1..], hex);
    }
  }

  lemma EntryCompares(item: RuntimeAsset, entries: map<string, string>, files: Files, hex: Digest -> string)
    requires item.asset.filename in entries && entries[item.asset.filename] == hex(item.asset.sha256)
    requires NoCollision([item], files, hex)
    ensures EntryHolds(item, entries, files, hex) <==> Intact(item, files)
  {
    assert [item][0] == item;
  }

  /** The entry a written line leaves behind, seen from the asset it was written for. */
  lemma {:induction false} EntryOfLeaf(leaves: seq<RuntimeAsset>, hex: Digest -> string, i: nat)
    requires i < |leaves| && DistinctNames(LinesOf(leaves))
    ensures var entries := Extended(map[], LinesOf(SortByName(leaves)), hex);
            leaves[i].asset.filename in entries && entries[leaves[i].asset.filename] == hex(leaves[i].asset.sha256)
  {
    hide DistinctNames, SortByName, LinesOf, LineNames, Names, Extended;
    var lines := LinesOf(SortByName(leaves));
    SortedLines(leaves);
    ExtendedMeaning(map[], lines, hex);
    var j :| 0 <= j < |lines| && lines[j] == LineOf(leaves[i]);
    assert lines[j].filename in Extended(map[], lines, hex);
  }

  /** For distinct names the check compares each file with its record. */
  lemma {:induction false} EntriesCompare(leaves: seq<RuntimeAsset>, files: Files, hex: Digest -> string)
    requires NoCollision(leaves, files, hex) && DistinctNames(LinesOf(leaves))
    ensures EntriesHold(leaves, Extended(map[], LinesOf(SortByName(leaves)), hex), files, hex) <==>
            forall i :: 0 <= i < |leaves| ==> Intact(leaves[i], files)
  {
    hide EntryHolds, Intact, DistinctNames, SortByName, LinesOf, LineNames, Names, Extended;
    var lines := LinesOf(SortByName(leaves));
    SortedLines(leaves);
    ExtendedMeaning(map[], lines, hex);
    forall i | 0 <= i < |leaves|
      ensures EntryHolds(leaves[i], Extended(map[], lines, hex), files, hex) <==> Intact(leaves[i], files)
    {
      EntryOfLeaf(leaves, hex, i);
      assert NoCollision([leaves[i]], files, hex);
      EntryCompares(leaves[i], Extended(map[], lines, hex), files, hex);
    }
  }

  /** Write and verify agree, exactly: the text the runtime writes for the current leaves is
      reported a match if and only if their names are distinct, free of whitespace and of path
      steps, and every file hashes as recorded. */
  lemma WrittenVerifiesIff(assets: seq<RuntimeAsset>, files: Files, hex: Digest -> string)
    requires Hexadecimal(hex) && NoCollision(ListedLeaves(assets), files, hex)
    ensures Verify(TextOf(ManifestLines(assets), hex), ListedLeaves(assets), files, hex) == Checked(true)
            <==> Listable(ListedLeaves(assets), files)
  {
    var leaves := ListedLeaves(assets);
    var lines := ManifestLines(assets);
    hide IsSpace, IsBreak, SafeName, MatchLine, Lower, SplitLines, SortByName, LinesOf, EntriesHold, ReadLines,
         Extended, DistinctNames, ListedLeaves, TextOf, Spaceless, Intact, NoCollision;
    SortedLines(leaves);
    ReadNamesPlain(SplitLines(TextOf(lines, hex)), map[]);
    if Verify(TextOf(lines, hex), leaves, files, hex) == Checked(true) {
      var entries := ReadLines(SplitLines(TextOf(lines, hex)), map[]).value;
      MatchedNames(leaves, entries, files, hex);
    }
    if forall i :: 0 <= i < |leaves| ==> PlainName(leaves[i].asset.filename) {
      forall i | 0 <= i < |lines| ensures PlainName(lines[i].filename) {
        assert lines[i] in lines;
        var k :| 0 <= k < |leaves| && LineOf(leaves[k]) == lines[i];
      }
      TextReads(lines, hex);
      if DistinctNames(LinesOf(leaves)) {
        EntriesCompare(leaves, files, hex);
      }
    }
  }

  lemma MatchedNames(leaves: seq<RuntimeAsset>, entries: map<string, string>, files: Files, hex: Digest -> string)
    requires EntriesHold(leaves, entries, files, hex) && PlainKeys(entries)
    ensures forall i :: 0 <= i < |leaves| ==> PlainName(leaves[i].asset.filename)
  {
    hide PlainName;
    forall i | 0 <= i < |leaves| ensures PlainName(leaves[i].asset.filename) {
      assert EntryHolds(leaves[i], entries, files, hex);
    }
  }

  /** For any text at all, a reported match means the entries are exactly the package's names
      with the hashes of the files that are there. */
  lemma {:induction false} MatchMeans(text: string, assets: seq<RuntimeAsset>, files: Files, hex: Digest -> string)
    requires Verify(text, assets, files, hex) == Checked(true)
    ensures var entries := ReadLines(SplitLines(text), map[]);
            && entries.Some? && entries.value.Keys == Names(assets)
            && forall i :: 0 <= i < |assets| ==>
                 && PlainName(assets[i].asset.filename) && assets[i].path in files
                 && assets[i].asset.filename in entries.value
                 && entries.value[assets[i].asset.filename] == hex(Sha256(files[assets[i].path]))
  {
    hide PlainName, ReadLines;
    var entries := ReadLines(SplitLines(text), map[]).value;
    ReadNamesPlain(SplitLines(text), map[]);
    MatchedNames(assets, entries, files, hex);
    forall i | 0 <= i < |assets| ensures EntryHolds(assets[i], entries, files, hex) {}
  }

  /** What is written is verified: when the one current manifest holds the text the runtime
      wrote for the run, the inspection of the current assets reports a match if and only if
      they can be listed. */
  lemma WrittenPackageVerifiesIff(run: RuntimeRun, item: RuntimeAsset, files: Files, decode: Content -> Option<string>,
                                  hex: Digest -> string)
    requires Hexadecimal(hex) && NoCollision(ListedLeaves(run.assets), files, hex)
    requires Manifests(run) == [item] && item.path in files
    requires decode(files[item.path]) == Some(TextOf(ManifestLines(run.assets), hex))
    ensures VerifyPackage(CurrentAssets(run), files, decode, hex) == Checked(true) <==>
            Listable(ListedLeaves(run.assets), files)
  {
    hide Verify, Listable, TextOf, ManifestLines, NoCollision, IsLeaf;
    var leaf := (x: RuntimeAsset) => IsLeaf(run.assets, x);
    SelectTwice(run.assets, leaf, x => !IsManifest(x),
                (x: RuntimeAsset) => IsLeaf(run.assets, x) && !x.asset.role.Manifest?);
    SelectAgrees(CurrentAssets(run), IsManifest, (x: RuntimeAsset) => x.asset.role.Manifest?);
    assert Package(CurrentAssets(run)) == ListedLeaves(run.assets);
    WrittenVerifiesIff(run.assets, files, hex);
  }
}
