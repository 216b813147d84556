/**
 File names of the control directory, the ids they carry, and recovery of claimed files.

 A command file is named `<tool key>.<id>.command`; claiming it replaces the extension by
 `processing-<pid>`, and a new helper puts the extension back.
 */
module ElevatedNames {
  import opened Basics

  // ---------- decimal numbers ----------

  function Digit(d: nat): char
    requires d < 10
  {
    '0' + d as char
  }

  predicate AllDigits(s: string) {
    forall i | 0 <= i < |s| :: '0' <= s[i] <= '9'
  }

  function Decimal(n: nat): (s: string)
    ensures s != [] && AllDigits(s)
  {
    if n < 10 then [Digit(n)] else Decimal(n / 10) + [Digit(n % 10)]
  }

  function DigitsValue(s: string): nat
    requires AllDigits(s)
  {
    if s == [] then 0 else DigitsValue(s[..|s| - 1]) * 10 + (s[|s| - 1] - '0') as nat
  }

  /** `str::parse::<u64>`: digits with an optional plus sign, and no overflow. */
  function ParseU64(s: string): Option<nat> {
    var digits := if s != [] && s[0] == '+' then s[1..] else s;
    if digits != [] && AllDigits(digits) && DigitsValue(digits) <= U64_MAX then Some(DigitsValue(digits)) else None
  }

  lemma {:induction false} DecimalValue(n: nat)
    ensures DigitsValue(Decimal(n)) == n
  {
    if n >= 10 {
      DecimalValue(n / 10);
      var s := Decimal(n);
      assert s[..|s| - 1] == Decimal(n / 10);
    }
  }

  lemma ParseDecimal(n: nat)
    ensures ParseU64(Decimal(n)) == if n <= U64_MAX then Some(n) else None
  {
    DecimalValue(n);
  }

  lemma {:induction false} LeadingZeros(s: string, zeros: nat)
    requires AllDigits(s) && zeros <= |s| && forall i | 0 <= i < zeros :: s[i] == '0'
    ensures DigitsValue(s) == DigitsValue(s[zeros..])
  {
    if zeros < |s| {
      LeadingZeros(s[..|s| - 1], zeros);
      assert s[zeros..][..|s| - zeros - 1] == s[..|s| - 1][zeros..];
    } else if s != [] {
      LeadingZeros(s[..|s| - 1], zeros - 1);
      assert s[..|s| - 1][zeros - 1..] == [] && s[zeros..] == [];
    }
  }

  lemma ZerosThenId(zeros: string, id: nat)
    requires forall i | 0 <= i < |zeros| :: zeros[i] == '0'
    ensures AllDigits(zeros + Decimal(id)) && DigitsValue(zeros + Decimal(id)) == id
  {
    var digits := zeros + Decimal(id);
    LeadingZeros(digits, |zeros|);
    assert digits[|zeros|..] == Decimal(id);
    DecimalValue(id);
  }

  /** An id is also read where it stands with leading zeros or a plus sign, which the proxy never writes. */
  lemma ParseIsLenient(id: u64, zeros: string)
    requires forall i | 0 <= i < |zeros| :: zeros[i] == '0'
    ensures ParseU64(zeros + Decimal(id)) == ParseU64("+" + (zeros + Decimal(id))) == Some(id)
  {
    var digits := zeros + Decimal(id);
    ZerosThenId(zeros, id);
    assert digits != [] && digits[0] != '+';
    assert ("+" + digits)[1..] == digits;
  }

  // ---------- splitting names ----------

  /** The first and the last index of a dot, or -1. */
  function FirstDot(s: string): (i: int)
    ensures -1 <= i < |s| && (i >= 0 ==> s[i] == '.')
    ensures forall j | 0 <= j < if i < 0 then |s| else i :: s[j] != '.'
  {
    if s == [] then -1 else if s[0] == '.' then 0 else
      var rest := FirstDot(s[1..]);
      assert forall j | 0 < j < |s| :: s[j] == s[1..][j - 1];
      if rest < 0 then -1 else rest + 1
  }

  function LastDot(s: string): (i: int)
    ensures -1 <= i < |s| && (i >= 0 ==> s[i] == '.')
    ensures forall j | i < j < |s| :: s[j] != '.'
  {
    if s == [] then -1 else if s[|s| - 1] == '.' then |s| - 1 else LastDot(s[..|s| - 1])
  }

  /** `split_once('.')`, first half. */
  function KeyPart(name: string): Option<string> {
    var i := FirstDot(name);
    if i < 0 then None else Some(name[..i])
  }

  /** `split('.').nth(1)`. */
  function SecondPart(name: string): Option<string> {
    var i := FirstDot(name);
    if i < 0 then None else
      var rest := name[i + 1..];
      var j := FirstDot(rest);
      Some(if j < 0 then rest else rest[..j])
  }

  /** `command_file_id`. */
  function CommandFileId(name: string): Option<nat> {
    var part := SecondPart(name);
    if part.None? then None else ParseU64(part.value)
  }

  /** `Path::extension` of a directory entry: a leading dot does not start an extension. */
  function Extension(name: string): Option<string> {
    var i := LastDot(name);
    if i <= 0 then None else Some(name[i + 1..])
  }

  /** `Path::with_extension`, for a non-empty extension. */
  function WithExtension(name: string, extension: string): string {
    var i := LastDot(name);
    (if i <= 0 then name else name[..i]) + "." + extension
  }

  // ---------- tool keys and command files ----------

  predicate AsciiAlphanumeric(c: char) {
    '0' <= c <= '9' || 'a' <= c <= 'z' || 'A' <= c <= 'Z'
  }

  function SafeChar(c: char): char {
    if !AsciiAlphanumeric(c) then '_' else if 'A' <= c <= 'Z' then (c - 'A') + 'a' else c
  }

  function SafeName(name: string): (safe: string)
    ensures '.' !in safe && |safe| == |name|
  {
    if name == [] then [] else [SafeChar(name[0])] + SafeName(name[1..])
  }

  function HexDigit(d: nat): char
    requires d < 16
  {
    if d < 10 then '0' + d as char else 'a' + (d - 10) as char
  }

  function Hex(n: nat, width: nat): (s: string)
    ensures |s| == width && '.' !in s
  {
    if width == 0 then [] else Hex(n / 16, width - 1) + [HexDigit(n % 16)]
  }

  /** `tool_key`; the hash of the name's bytes is a parameter. */
  function ToolKey(name: string, hash: nat): (key: string)
    ensures '.' !in key && key != []
  {
    SafeName(name) + "_" + Hex(hash, 16)
  }

  function Pow16(e: nat): nat {
    if e == 0 then 1 else 16 * Pow16(e - 1)
  }

  /** The value of a lower-case hexadecimal digit, or -1. */
  function HexDigitValue(c: char): int {
    if '0' <= c <= '9' then (c - '0') as int else if 'a' <= c <= 'f' then (c - 'a') as int + 10 else -1
  }

  function HexValue(s: string): int {
    if s == [] then 0 else HexValue(s[..|s| - 1]) * 16 + HexDigitValue(s[|s| - 1])
  }

  lemma {:induction false} HexReadsBack(n: nat, width: nat)
    requires n < Pow16(width)
    ensures HexValue(Hex(n, width)) == n && forall c | c in Hex(n, width) :: HexDigitValue(c) >= 0
  {
    if width > 0 {
      HexReadsBack(n / 16, width - 1);
      var s := Hex(n, width);
      assert s[..|s| - 1] == Hex(n / 16, width - 1);
    }
  }

  lemma {:induction false} SafeNameAt(name: string, i: nat)
    requires i < |name|
    ensures SafeName(name)[i] == SafeChar(name[i])
  {
    if i > 0 {
      SafeNameAt(name[1..], i - 1);
    }
  }

  lemma SafeCharSpelledOut(c: char)
    ensures if 'a' <= c <= 'z' || '0' <= c <= '9' then SafeChar(c) == c
            else if 'A' <= c <= 'Z' then SafeChar(c) as int == c as int + 32
            else SafeChar(c) == '_'
  {
  }

  lemma KeyEndsInHash(name: string, hash: u64)
    ensures var key, n := ToolKey(name, hash), |name|;
            && |key| == n + 17 && key[..n] == SafeName(name) && key[n] == '_'
            && HexValue(key[n + 1..]) == hash && forall c | c in key[n + 1..] :: HexDigitValue(c) >= 0
  {
    SixteenDigits();
    HexReadsBack(hash, 16);
    assert ToolKey(name, hash)[|name| + 1..] == Hex(hash, 16);
  }

  /** A key spelled out: letters in lower case and digits of the name stay, everything else becomes an underscore;
      an underscore follows, and then the hash in sixteen hexadecimal digits. */
  lemma KeySpelledOut(name: string, hash: u64)
    ensures var key, n := ToolKey(name, hash), |name|;
            && |key| == n + 17 && key[n] == '_'
            && (forall i | 0 <= i < n ::
                  if 'a' <= name[i] <= 'z' || '0' <= name[i] <= '9' then key[i] == name[i]
                  else if 'A' <= name[i] <= 'Z' then key[i] as int == name[i] as int + 32
                  else key[i] == '_')
            && (forall c | c in key[n + 1..] :: HexDigitValue(c) >= 0) && HexValue(key[n + 1..]) == hash
  {
    KeyEndsInHash(name, hash);
    forall i | 0 <= i < |name|
      ensures ToolKey(name, hash)[i] == SafeChar(name[i])
    {
      SafeNameAt(name, i);
    }
    forall i | 0 <= i < |name|
      ensures if 'a' <= name[i] <= 'z' || '0' <= name[i] <= '9' then SafeChar(name[i]) == name[i]
              else if 'A' <= name[i] <= 'Z' then SafeChar(name[i]) as int == name[i] as int + 32
              else SafeChar(name[i]) == '_'
    {
      SafeCharSpelledOut(name[i]);
    }
  }

  lemma SixteenDigits()
    ensures Pow16(16) == U64_MAX + 1
  {
    assert Pow16(4) == 0x1_0000;
    assert Pow16(8) == 0x1_0000_0000;
    assert Pow16(12) == 0x1_0000_0000_0000;
  }

  /** Two tools share a key exactly when their hashes agree and their names differ in nothing but the case of letters
      and in characters that become underscores. */
  lemma KeysAgreeExactly(name: string, hash: u64, name': string, hash': u64)
    ensures ToolKey(name, hash) == ToolKey(name', hash')
       <==> hash == hash' && SafeName(name) == SafeName(name')
  {
    KeyEndsInHash(name, hash);
    KeyEndsInHash(name', hash');
  }

  const COMMAND := "command"
  const PROCESSING := "processing-"

  function CommandFile(key: string, id: nat): string {
    key + "." + Decimal(id) + "." + COMMAND
  }

  function ClaimedFile(command: string, pid: nat): string {
    WithExtension(command, PROCESSING + Decimal(pid))
  }

  predicate IsCommandFile(name: string) {
    Extension(name) == Some(COMMAND)
  }

  predicate IsClaimedFile(name: string) {
    Extension(name).Some? && PROCESSING <= Extension(name).value
  }

  function RestoredFile(claimed: string): string {
    WithExtension(claimed, COMMAND)
  }

  lemma {:induction false} FirstDotAt(a: string, b: string)
    requires '.' !in a
    ensures FirstDot(a + "." + b) == |a| && KeyPart(a + "." + b) == Some(a)
    ensures (a + "." + b)[|a| + 1..] == b
  {
    var s := a + "." + b;
    assert s[|a|] == '.' && s[..|a|] == a && s[|a| + 1..] == b;
    if a != [] {
      FirstDotAt(a[1..], b);
      assert s[1..] == a[1..] + "." + b;
      assert s[0] == a[0] && a[0] in a;
    }
  }

  lemma {:induction false} LastDotAt(a: string, b: string)
    requires '.' !in b
    ensures LastDot(a + "." + b) == |a|
    ensures a != [] ==> Extension(a + "." + b) == Some(b)
    ensures a != [] ==> forall e :: WithExtension(a + "." + b, e) == a + "." + e
  {
    var s := a + "." + b;
    assert s[|a|] == '.' && s[..|a|] == a && s[|a| + 1..] == b;
    if b != [] {
      LastDotAt(a, b[..|b| - 1]);
      assert s[..|s| - 1] == a + "." + b[..|b| - 1];
      assert s[|s| - 1] == b[|b| - 1] && b[|b| - 1] in b;
    }
  }

  lemma DigitsHaveNoDot(n: nat)
    ensures '.' !in Decimal(n)
  {
  }

  /** The helper reads back exactly the key and the id that the proxy wrote into the name. */
  lemma NameRoundTrip(key: string, id: nat)
    requires '.' !in key && key != []
    ensures KeyPart(CommandFile(key, id)) == Some(key)
    ensures CommandFileId(CommandFile(key, id)) == if id <= U64_MAX then Some(id) else None
    ensures IsCommandFile(CommandFile(key, id)) && !IsClaimedFile(CommandFile(key, id))
  {
    var digits, name := Decimal(id), CommandFile(key, id);
    assert name == key + "." + (digits + "." + COMMAND);
    FirstDotAt(key, digits + "." + COMMAND);
    DigitsHaveNoDot(id);
    FirstDotAt(digits, COMMAND);
    ParseDecimal(id);
    CommandExtension(key, id);
  }

  lemma CommandExtension(key: string, id: nat)
    ensures Extension(CommandFile(key, id)) == Some(COMMAND)
    ensures forall e :: WithExtension(CommandFile(key, id), e) == key + "." + Decimal(id) + "." + e
  {
    LastDotAt(key + "." + Decimal(id), COMMAND);
  }

  /** Two commands never share a file. */
  lemma CommandFilesAreDistinct(key: string, id: u64, key': string, id': u64)
    requires '.' !in key && '.' !in key' && key != [] && key' != []
    requires CommandFile(key, id) == CommandFile(key', id')
    ensures key == key' && id == id'
  {
    NameRoundTrip(key, id);
    NameRoundTrip(key', id');
  }

  /** Claiming hides a command from listings, and recovery gives it its name back. */
  lemma ClaimThenRecover(key: string, id: nat, pid: nat)
    requires '.' !in key && key != []
    ensures var claimed := ClaimedFile(CommandFile(key, id), pid);
            IsClaimedFile(claimed) && !IsCommandFile(claimed) && RestoredFile(claimed) == CommandFile(key, id)
  {
    CommandExtension(key, id);
    DigitsHaveNoDot(pid);
    LastDotAt(key + "." + Decimal(id), PROCESSING + Decimal(pid));
    assert (PROCESSING + Decimal(pid))[0] != COMMAND[0];
  }

  lemma RestoredIsCommand(name: string)
    requires IsClaimedFile(name)
    ensures IsCommandFile(RestoredFile(name)) && !IsClaimedFile(RestoredFile(name))
  {
    LastDotAt(name[..LastDot(name)], COMMAND);
  }

  // ---------- recovery ----------

  type Files = map<string, string>

  /** Which names are claimed files, and which name each is restored to. */
  datatype Naming = Naming(claimed: string -> bool, restored: string -> string)

  const CONTROL_NAMING := Naming(IsClaimedFile, RestoredFile)

  /** One entry of the listing: rename a claimed file back, or remove it if the command exists. */
  function RecoverEntry(ns: Naming, files: Files, path: string): Files {
    if path !in files || !ns.claimed(path) then files
    else if ns.restored(path) !in files then files[ns.restored(path) := files[path]] - {path}
    else files - {path}
  }

  function RecoverAll(ns: Naming, files: Files, entries: seq<string>): Files {
    if entries == [] then files else RecoverEntry(ns, RecoverAll(ns, files, entries[..|entries| - 1]), Last(entries))
  }

  /** Some claimed file had this name and content once its extension was put back. */
  ghost predicate IsRestored(ns: Naming, before: Files, name: string, content: string) {
    exists claimed | claimed in before ::
        ns.claimed(claimed) && ns.restored(claimed) == name && before[claimed] == content
  }

  /** Recovery has dealt with the names in `handled`. */
  ghost predicate Recovered(ns: Naming, before: Files, after: Files, handled: set<string>) {
    && (forall name | name in after && ns.claimed(name) ::
        name !in handled && name in before && after[name] == before[name])
    && (forall name | name in before && ns.claimed(name) && name in handled :: ns.restored(name) in after)
    && (forall name | name in before && ns.claimed(name) && name !in handled :: name in after)
    && (forall name | name in before && !ns.claimed(name) :: name in after && after[name] == before[name])
    && (forall name | name in after && name !in before :: IsRestored(ns, before, name, after[name]))
  }

  lemma RecoverEntryEffect(ns: Naming, before: Files, files: Files, handled: set<string>, path: string)
    requires Recovered(ns, before, files, handled) && path in before && path !in handled
    requires forall name | ns.claimed(name) :: !ns.claimed(ns.restored(name))
    ensures Recovered(ns, before, RecoverEntry(ns, files, path), handled + {path})
  {
  }

  lemma NamesOfOneMore(init: seq<string>, path: string)
    ensures (set name | name in init + [path]) == (set name | name in init) + {path}
  {
  }

  lemma {:induction false} RecoverAllEffect(ns: Naming, before: Files, entries: seq<string>)
    requires forall name | ns.claimed(name) :: !ns.claimed(ns.restored(name))
    requires forall i, j | 0 <= i < j < |entries| :: entries[i] != entries[j]
    requires forall name | name in entries :: name in before
    ensures Recovered(ns, before, RecoverAll(ns, before, entries), set name | name in entries)
  {
    if entries != [] {
      var init, path := entries[..|entries| - 1], Last(entries);
      RecoverAllEffect(ns, before, init);
      assert entries == init + [path];
      NamesOfOneMore(init, path);
      RecoverEntryEffect(ns, before, RecoverAll(ns, before, init), (set name | name in init), path);
    }
  }

  /** Over a listing of the directory in any order: no claimed file is left, every claimed command is
      a command file again, other files are untouched, and nothing else appears. */
  lemma RecoveryConserves(before: Files, entries: seq<string>)
    requires forall i, j | 0 <= i < j < |entries| :: entries[i] != entries[j]
    requires forall name :: name in entries <==> name in before
    ensures var after := RecoverAll(CONTROL_NAMING, before, entries);
            && (forall name | name in after :: !IsClaimedFile(name))
            && (forall name | name in before && IsClaimedFile(name) :: RestoredFile(name) in after)
            && (forall name | name in before && !IsClaimedFile(name) :: name in after && after[name] == before[name])
            && (forall name | name in after && name !in before :: IsRestored(CONTROL_NAMING, before, name, after[name]))
  {
    forall name | IsClaimedFile(name)
      ensures !IsClaimedFile(RestoredFile(name))
    {
      RestoredIsCommand(name);
    }
    RecoverAllEffect(CONTROL_NAMING, before, entries);
  }

  /** The control directory: file names and contents. */
  class ControlDirectory {
    var files: Files

    /** `recover_claimed_commands`, over a listing in any order. */
    method RecoverClaimedCommands(entries: seq<string>)
      modifies this
      ensures files == RecoverAll(CONTROL_NAMING, old(files), entries)
    {
      for n := 0 to |entries|
        invariant files == RecoverAll(CONTROL_NAMING, old(files), entries[..n])
      {
        var path := entries[n];
        assert entries[..n + 1][..n] == entries[..n];
        if path in files && IsClaimedFile(path) {
          var command := RestoredFile(path);
          if command !in files {
            files := files[command := files[path]] - {path};
          } else {
            files := files - {path};
          }
        }
      }
      assert entries[..|entries|] == entries;
    }
  }
}
