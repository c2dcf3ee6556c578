/** Dumping the IR handed to the compiler: the file-name sanitiser, the
    decimal rendering of the process-wide dump counter, the dump file name
    `jax_ir<N>_<sanitised module name>.mlir`, and the dumper that owns the
    counter. */
module IrDump {

  // ---------------------------------------------------------------------------
  // Sanitising a module name
  // ---------------------------------------------------------------------------

  /** `\w` restricted to ASCII: letters, digits and the underscore. */
  predicate IsWordChar(c: char) {
    ('a' <= c <= 'z') || ('A' <= c <= 'Z') || ('0' <= c <= '9') || c == '_'
  }

  /** The characters `[\w.)( -]` keeps. */
  predicate IsFilenameSafe(c: char) {
    IsWordChar(c) || c == '.' || c == ')' || c == '(' || c == ' ' || c == '-'
  }

  /** `_make_string_safe_for_filename`: delete every character outside the
      safe class. The result holds only safe characters and leaves a string
      that is already safe as it is, so sanitising twice changes nothing. */
  function MakeStringSafeForFilename(s: string): (r: string)
    ensures |r| <= |s|
    ensures forall i | 0 <= i < |r| :: IsFilenameSafe(r[i])
    ensures (forall i | 0 <= i < |s| :: IsFilenameSafe(s[i])) ==> r == s
  {
    if s == [] then []
    else (if IsFilenameSafe(s[0]) then [s[0]] else []) + MakeStringSafeForFilename(s[1..])
  }

  lemma SanitiseIdempotent(s: string)
    ensures MakeStringSafeForFilename(MakeStringSafeForFilename(s)) == MakeStringSafeForFilename(s)
  {
  }

  /** `r` can be obtained from `s` by deleting characters. */
  predicate IsSubsequence(r: string, s: string)
    decreases |s|
  {
    if r == [] then true
    else if s == [] then false
    else if r[0] == s[0] then IsSubsequence(r[1..], s[1..])
    else IsSubsequence(r, s[1..])
  }

  /** Sanitising only deletes: the characters kept stay in their order. */
  lemma {:induction false} SanitisedIsSubsequence(s: string)
    ensures IsSubsequence(MakeStringSafeForFilename(s), s)
  {
    if s != [] {
      SanitisedIsSubsequence(s[1..]);
      var r := MakeStringSafeForFilename(s);
      if IsFilenameSafe(s[0]) {
        assert r[0] == s[0] && r[1..] == MakeStringSafeForFilename(s[1..]);
      } else {
        assert r == MakeStringSafeForFilename(s[1..]);
        assert r != [] ==> r[0] != s[0];
      }
    }
  }

  /** Every safe character is kept, as often as it occurs, and nothing else. */
  lemma {:induction false} SanitiseKeepsSafeCharacters(s: string, c: char)
    ensures multiset(MakeStringSafeForFilename(s))[c] == if IsFilenameSafe(c) then multiset(s)[c] else 0
  {
    if s != [] {
      SanitiseKeepsSafeCharacters(s[1..], c);
      assert s == [s[0]] + s[1..];
    }
  }

  /** Sanitising distributes over concatenation: it is a character-by-character filter. */
  lemma {:induction false} SanitiseConcat(a: string, b: string)
    ensures MakeStringSafeForFilename(a + b) == MakeStringSafeForFilename(a) + MakeStringSafeForFilename(b)
  {
    if a == [] {
      assert a + b == b;
    } else {
      var head := if IsFilenameSafe(a[0]) then [a[0]] else [];
      assert (a + b)[0] == a[0] && (a + b)[1..] == a[1..] + b;
      SanitiseConcat(a[1..], b);
      calc {
        MakeStringSafeForFilename(a + b);
        head + MakeStringSafeForFilename(a[1..] + b);
        head + (MakeStringSafeForFilename(a[1..]) + MakeStringSafeForFilename(b));
        (head + MakeStringSafeForFilename(a[1..])) + MakeStringSafeForFilename(b);
      }
    }
  }

  // ---------------------------------------------------------------------------
  // Decimal rendering of the counter
  // ---------------------------------------------------------------------------

  predicate IsDigit(c: char) {
    '0' <= c <= '9'
  }

  function DigitChar(d: nat): (c: char)
    requires d < 10
    ensures IsDigit(c) && DigitValue(c) == d
  {
    ('0' as int + d) as char
  }

  /** Python's `str(n)` for a non-negative integer: digits only, no leading zero. */
  function DecimalString(n: nat): (s: string)
    ensures |s| >= 1
    ensures forall i | 0 <= i < |s| :: IsDigit(s[i])
    ensures s[0] == '0' ==> n == 0
  {
    if n < 10 then [DigitChar(n)] else DecimalString(n / 10) + [DigitChar(n % 10)]
  }

  function DigitValue(c: char): nat
    requires IsDigit(c)
  {
    c as int - '0' as int
  }

  /** The value of a string of digits. */
  function DecimalValue(s: string): nat
    requires forall i | 0 <= i < |s| :: IsDigit(s[i])
  {
    if s == [] then 0 else DecimalValue(s[..|s| - 1]) * 10 + DigitValue(s[|s| - 1])
  }

  lemma {:induction false} DecimalRoundTrip(n: nat)
    ensures DecimalValue(DecimalString(n)) == n
  {
    if n >= 10 {
      DecimalRoundTrip(n / 10);
      var s := DecimalString(n);
      assert s[..|s| - 1] == DecimalString(n / 10);
    }
  }

  /** The longest prefix of `s` made of digits. */
  function LeadingDigits(s: string): (p: string)
    ensures p <= s
    ensures forall i | 0 <= i < |p| :: IsDigit(p[i])
    ensures |p| < |s| ==> !IsDigit(s[|p|])
  {
    if s == [] || !IsDigit(s[0]) then [] else [s[0]] + LeadingDigits(s[1..])
  }

  lemma {:induction false} LeadingDigitsOf(digits: string, rest: string)
    requires forall i | 0 <= i < |digits| :: IsDigit(digits[i])
    requires rest != [] && !IsDigit(rest[0])
    ensures LeadingDigits(digits + rest) == digits
  {
    if digits == [] {
      assert digits + rest == rest;
    } else {
      assert (digits + rest)[0] == digits[0] && (digits + rest)[1..] == digits[1..] + rest;
      LeadingDigitsOf(digits[1..], rest);
      assert digits == [digits[0]] + digits[1..];
    }
  }

  // ---------------------------------------------------------------------------
  // Dump file names
  // ---------------------------------------------------------------------------

  /** The name `_dump_ir_to_file` writes for the `id`-th dump of module `moduleName`. */
  function DumpFileName(id: nat, moduleName: string): (f: string)
    ensures |f| >= 13 && f[..6] == "jax_ir" && f[|f| - 5..] == ".mlir"
    ensures forall i | 0 <= i < |f| :: IsFilenameSafe(f[i])
  {
    "jax_ir" + DecimalString(id) + "_" + MakeStringSafeForFilename(moduleName) + ".mlir"
  }

  /** The counter value a dump file name was made from. */
  function DumpId(fileName: string): nat
    requires |fileName| >= 6
  {
    var digits := LeadingDigits(fileName[6..]);
    DecimalValue(digits)
  }

  /** The counter can be read back from the file name. */
  lemma DumpIdRoundTrip(id: nat, moduleName: string)
    ensures DumpId(DumpFileName(id, moduleName)) == id
  {
    var d := DecimalString(id);
    var rest := "_" + MakeStringSafeForFilename(moduleName) + ".mlir";
    assert DumpFileName(id, moduleName)[6..] == d + rest;
    LeadingDigitsOf(d, rest);
    DecimalRoundTrip(id);
  }

  /** Two dumps with different counter values never share a file name,
      whatever the modules are called. */
  lemma DumpFileNamesDistinct(i: nat, j: nat, a: string, b: string)
    requires i != j
    ensures DumpFileName(i, a) != DumpFileName(j, b)
  {
    DumpIdRoundTrip(i, a);
    DumpIdRoundTrip(j, b);
  }

  // ---------------------------------------------------------------------------
  // The dumper
  // ---------------------------------------------------------------------------

  /** A file written by `_dump_ir_to_file`: `Path(directory) / fileName` with the IR text. */
  datatype DumpedFile = DumpedFile(directory: string, fileName: string, moduleName: string, text: string)

  /** The `n`-th file was named after counter value `n`. */
  ghost predicate NumberedInOrder(files: seq<DumpedFile>) {
    forall n | 0 <= n < |files| :: files[n].fileName == DumpFileName(n, files[n].moduleName)
  }

  /** Within one process no two dump files collide. */
  lemma DumpedFilesDistinct(files: seq<DumpedFile>)
    requires NumberedInOrder(files)
    ensures forall m, n | 0 <= m < n < |files| :: files[m].fileName != files[n].fileName
  {
    forall m, n | 0 <= m < n < |files|
      ensures files[m].fileName != files[n].fileName
    {
      DumpFileNamesDistinct(m, n, files[m].moduleName, files[n].moduleName);
    }
  }

  /** The process-wide `_ir_dump_counter` with the files written so far. */
  class IrDumper {
    var next: nat
    var written: seq<DumpedFile>

    ghost predicate Valid()
      reads this
    {
      |written| == next && NumberedInOrder(written)
    }

    /** `itertools.count()`: the first dump is number 0. */
    constructor ()
      ensures Valid() && next == 0 && written == []
    {
      next := 0;
      written := [];
    }

    /** `_dump_ir_to_file`: take the next counter value and write the IR under
        the name made from it. */
    method DumpIrToFile(directory: string, moduleName: string, text: string)
      requires Valid()
      modifies this
      ensures Valid()
      ensures next == old(next) + 1
      ensures written == old(written) + [DumpedFile(directory, DumpFileName(old(next), moduleName), moduleName, text)]
    {
      var id := next;
      next := next + 1;
      var fileName := DumpFileName(id, moduleName);
      written := written + [DumpedFile(directory, fileName, moduleName, text)];
    }
  }
}
