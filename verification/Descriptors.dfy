/**
 Replica descriptors and their object names (`src/replica_helpers.rs`).

 A replica announces itself by creating an object named after its descriptor; other
 replicas read the membership back from the names alone. Socket addresses are an
 opaque type with a printer and a parser of their own.
 */
module Descriptors {
  import opened Options

  const PID_BOUND: nat := 0x1_0000_0000_0000_0000_0000_0000_0000_0000
  const COUNTER_MIN: int := -0x8000_0000_0000_0000
  const COUNTER_MAX: int := 0x7fff_ffff_ffff_ffff

  datatype Descriptor<A> = Descriptor(pid: nat, address: A, gcCounter: int, finalCounter: Option<int>)

  ghost predicate InRange<A>(d: Descriptor<A>) {
    && d.pid < PID_BOUND
    && COUNTER_MIN <= d.gcCounter <= COUNTER_MAX
    && (d.finalCounter.Some? ==> COUNTER_MIN <= d.finalCounter.value <= COUNTER_MAX)
  }

  function DigitChar(n: nat): char
    requires n < 10
  {
    '0' + n as char
  }

  function PrintNat(n: nat): string {
    if n < 10 then [DigitChar(n)] else PrintNat(n / 10) + [DigitChar(n % 10)]
  }

  function PrintInt(i: int): string {
    if i < 0 then "-" + PrintNat(-i) else PrintNat(i)
  }

  /** At least one digit, and digits only. */
  function ParseNat(s: string): Option<nat>
    decreases |s|
  {
    if s == "" then None
    else
      var last := s[|s| - 1];
      if !('0' <= last <= '9') then None
      else
        var digit := last as int - '0' as int;
        if |s| == 1 then Some(digit)
        else
          match ParseNat(s[..|s| - 1])
          case None => None
          case Some(n) => Some(10 * n + digit)
  }

  /** Integer parsing of the standard library: a sign is optional, `-` only where the type is signed. */
  function ParseUnsigned(s: string, bound: nat): Option<nat> {
    match ParseNat(if s != "" && s[0] == '+' then s[1..] else s)
    case None => None
    case Some(n) => if n < bound then Some(n) else None
  }

  function ParseSigned(s: string): Option<int> {
    if s != "" && s[0] == '-' then
      match ParseNat(s[1..])
      case None => None
      case Some(n) =>
        var value: int := 0 - n;
        if COUNTER_MIN <= value then Some(value) else None
    else
      match ParseUnsigned(s, COUNTER_MAX + 1)
      case None => None
      case Some(n) => Some(n)
  }

  function Split(s: string, separator: char): (parts: seq<string>)
    ensures |parts| >= 1
  {
    if s == "" then [""]
    else
      var rest := Split(s[1..], separator);
      if s[0] == separator then [""] + rest else [[s[0]] + rest[0]] + rest[1..]
  }

  function AfterLast(s: string, separator: char): string {
    if separator in s then AfterLast(s[1..], separator) else s
  }

  function TrimEnd(s: string, c: char): string {
    if s != "" && s[|s| - 1] == c then TrimEnd(s[..|s| - 1], c) else s
  }

  function Print<A>(printAddress: A -> string, d: Descriptor<A>): string {
    PrintNat(d.pid) + "," + (printAddress(d.address) + "," +
      (PrintInt(d.gcCounter) + if d.finalCounter.Some? then "," + PrintInt(d.finalCounter.value) else ""))
  }

  function ObjectPath<A>(printAddress: A -> string, directory: string, d: Descriptor<A>): string {
    TrimEnd(directory, '/') + "/" + Print(printAddress, d)
  }

  function Parse<A>(parseAddress: string -> Option<A>, path: string): Option<Descriptor<A>> {
    var parts := Split(AfterLast(path, '/'), ',');
    if |parts| != 3 && |parts| != 4 then None
    else
      var pid := ParseUnsigned(parts[0], PID_BOUND);
      var address := parseAddress(parts[1]);
      var gc := ParseSigned(parts[2]);
      var final := if |parts| == 4 then ParseSigned(parts[3]) else None;
      if pid.None? || address.None? || gc.None? || (|parts| == 4 && final.None?) then None
      else Some(Descriptor(pid.value, address.value, gc.value, final))
  }

  ghost predicate Digits(s: string) {
    s != "" && forall i | 0 <= i < |s| :: '0' <= s[i] <= '9'
  }

  /** The number a string of digits stands for. */
  function ValueOf(s: string): nat
    requires forall i | 0 <= i < |s| :: '0' <= s[i] <= '9'
  {
    if s == "" then 0 else 10 * ValueOf(s[..|s| - 1]) + (s[|s| - 1] as int - '0' as int)
  }

  /** Exactly the strings of digits are read as numbers, and as the number they stand for. */
  lemma {:induction false} ParseNatIff(s: string)
    ensures ParseNat(s) == if Digits(s) then Some(ValueOf(s)) else None
  {
    if |s| > 1 {
      ParseNatIff(s[..|s| - 1]);
      assert Digits(s) <==> Digits(s[..|s| - 1]) && '0' <= s[|s| - 1] <= '9';
    }
  }

  /** A number is printed in digits without leading zeros. */
  lemma {:induction false} PrintedNat(n: nat)
    ensures Digits(PrintNat(n)) && ParseNat(PrintNat(n)) == Some(n)
    ensures PrintNat(n)[0] == '0' ==> n == 0
  {
    if n >= 10 {
      PrintedNat(n / 10);
      var s := PrintNat(n);
      assert s[..|s| - 1] == PrintNat(n / 10);
    }
  }

  lemma PrintedUnsigned(n: nat, bound: nat)
    requires n < bound
    ensures ParseUnsigned(PrintNat(n), bound) == Some(n)
  {
    PrintedNat(n);
  }

  lemma DigitsOnly(s: string)
    requires Digits(s)
    ensures ',' !in s && '/' !in s && s[0] != '+' && s[0] != '-'
  {
  }

  lemma PrintedNegative(n: nat)
    requires COUNTER_MIN <= 0 - n
    ensures ParseSigned("-" + PrintNat(n)) == Some(0 - n)
  {
    PrintedNat(n);
    hide PrintNat, ParseNat;
    assert ("-" + PrintNat(n))[1..] == PrintNat(n);
  }

  lemma PrintedPositive(n: nat)
    requires n <= COUNTER_MAX
    ensures ParseSigned(PrintNat(n)) == Some(n)
  {
    PrintedNat(n);
    DigitsOnly(PrintNat(n));
    hide PrintNat, ParseNat, Digits;
  }

  /** A printed counter is read back, and it never contains a separator. */
  lemma PrintedSigned(i: int)
    requires COUNTER_MIN <= i <= COUNTER_MAX
    ensures ParseSigned(PrintInt(i)) == Some(i)
    ensures ',' !in PrintInt(i) && '/' !in PrintInt(i)
  {
    hide ParseSigned, PrintNat, Digits;
    var n: nat := if i < 0 then 0 - i else i;
    PrintedNat(n);
    DigitsOnly(PrintNat(n));
    if i < 0 {
      PrintedNegative(n);
    } else {
      PrintedPositive(n);
    }
  }

  lemma {:induction false} SplitFirst(first: string, rest: string, separator: char)
    requires separator !in first
    ensures Split(first + [separator] + rest, separator) == [first] + Split(rest, separator)
  {
    var s := first + [separator] + rest;
    if first == "" {
      assert s[1..] == rest;
    } else {
      assert first == [first[0]] + first[1..] && s[1..] == first[1..] + [separator] + rest;
      SplitFirst(first[1..], rest, separator);
    }
  }

  lemma {:induction false} SplitOne(s: string, separator: char)
    requires separator !in s
    ensures Split(s, separator) == [s]
  {
    if s != "" {
      assert s == [s[0]] + s[1..];
      SplitOne(s[1..], separator);
    }
  }

  lemma NoDirectory(name: string, separator: char)
    requires separator !in name
    ensures AfterLast(name, separator) == name
  {
  }

  lemma {:induction false} NameAfterDirectory(directory: string, name: string, separator: char)
    requires separator !in name
    ensures AfterLast(directory + [separator] + name, separator) == name
  {
    var s := directory + [separator] + name;
    assert s[|directory|] == separator;
    if directory == "" {
      assert s[1..] == name;
    } else {
      assert s[1..] == directory[1..] + [separator] + name;
      NameAfterDirectory(directory[1..], name, separator);
    }
  }

  /** The last one or two fields of a name. */
  lemma CounterParts(gc: string, final: Option<string>)
    requires ',' !in gc && (final.Some? ==> ',' !in final.value)
    ensures Split(gc + (if final.Some? then "," + final.value else ""), ',') == [gc] + if final.Some? then [final.value] else []
  {
    hide Split;
    if final.Some? {
      assert gc + ("," + final.value) == gc + [','] + final.value;
      SplitFirst(gc, final.value, ',');
      SplitOne(final.value, ',');
    } else {
      assert gc + "" == gc;
      SplitOne(gc, ',');
    }
  }

  lemma PrintedParts<A>(printAddress: A -> string, d: Descriptor<A>)
    requires InRange(d) && ',' !in printAddress(d.address)
    ensures Split(Print(printAddress, d), ',') ==
            [PrintNat(d.pid), printAddress(d.address), PrintInt(d.gcCounter)] +
            if d.finalCounter.Some? then [PrintInt(d.finalCounter.value)] else []
  {
    hide Split, PrintNat, PrintInt, Digits, ParseSigned;
    var pid, address, gc := PrintNat(d.pid), printAddress(d.address), PrintInt(d.gcCounter);
    PrintedNat(d.pid);
    DigitsOnly(pid);
    PrintedSigned(d.gcCounter);
    if d.finalCounter.Some? {
      PrintedSigned(d.finalCounter.value);
    }
    var final := if d.finalCounter.Some? then Some(PrintInt(d.finalCounter.value)) else None;
    var tail := gc + if final.Some? then "," + final.value else "";
    CounterParts(gc, final);
    SplitFirst(address, tail, ',');
    assert address + "," + tail == address + [','] + tail;
    SplitFirst(pid, address + "," + tail, ',');
  }

  // ---- Exactly what is read ----

  function Joined(fields: seq<string>): string {
    if fields == [] then "" else if |fields| == 1 then fields[0] else fields[0] + "," + Joined(fields[1..])
  }

  ghost predicate NoCommas(fields: seq<string>) {
    forall i | 0 <= i < |fields| :: ',' !in fields[i]
  }

  /** Fields without commas are what their joined text is split into. */
  lemma {:induction false} SplitOfJoined(fields: seq<string>)
    requires fields != [] && NoCommas(fields)
    ensures Split(Joined(fields), ',') == fields
  {
    if |fields| == 1 {
      SplitOne(fields[0], ',');
    } else {
      SplitOfJoined(fields[1..]);
      SplitFirst(fields[0], Joined(fields[1..]), ',');
      assert fields[0] + "," + Joined(fields[1..]) == fields[0] + [','] + Joined(fields[1..]);
    }
  }

  /** Every text is what its parts are joined to, and they have no commas. */
  lemma {:induction false} JoinedOfSplit(s: string)
    ensures NoCommas(Split(s, ',')) && Joined(Split(s, ',')) == s
  {
    if s != "" {
      JoinedOfSplit(s[1..]);
      var rest := Split(s[1..], ',');
      var parts := Split(s, ',');
      assert parts == if s[0] == ',' then [""] + rest else [[s[0]] + rest[0]] + rest[1..];
      hide Split;
      assert s == [s[0]] + s[1..];
      JoinedCons(s[0], rest);
      assert NoCommas(parts) by {
        assert forall i | 0 < i < |parts| :: parts[i] == if s[0] == ',' then rest[i - 1] else rest[i];
      }
    }
  }

  lemma JoinedCons(c: char, rest: seq<string>)
    requires rest != []
    ensures Joined([""] + rest) == "," + Joined(rest)
    ensures Joined([[c] + rest[0]] + rest[1..]) == [c] + Joined(rest)
  {
    assert ([""] + rest)[1..] == rest && "" + "," + Joined(rest) == "," + Joined(rest);
    assert ([[c] + rest[0]] + rest[1..])[1..] == rest[1..];
    if |rest| > 1 {
      assert [c] + rest[0] + "," + Joined(rest[1..]) == [c] + (rest[0] + "," + Joined(rest[1..]));
    }
  }

  lemma {:induction false} DirectoryAndName(path: string) returns (directory: string)
    ensures '/' !in AfterLast(path, '/')
    ensures path == AfterLast(path, '/') || path == directory + "/" + AfterLast(path, '/')
  {
    directory := "";
    if '/' in path {
      var rest := DirectoryAndName(path[1..]);
      assert path == [path[0]] + path[1..];
      if path[1..] == AfterLast(path[1..], '/') {
        assert path[0] == '/';
      } else {
        directory := [path[0]] + rest;
      }
    }
  }

  /** `name` is what follows the last slash of `path`, or all of it. */
  ghost predicate EndsIn(path: string, name: string) {
    '/' !in name && (path == name || exists directory :: path == directory + "/" + name)
  }

  lemma EndsInIff(path: string, name: string)
    ensures EndsIn(path, name) <==> AfterLast(path, '/') == name
  {
    var directory := DirectoryAndName(path);
    if EndsIn(path, name) {
      if path == name {
        NoDirectory(name, '/');
      } else {
        var prefix :| path == prefix + "/" + name;
        NameAfterDirectory(prefix, name, '/');
      }
    }
  }

  /** Digits, a plus sign allowed in front, below the bound. */
  ghost predicate DenotesUnsigned(s: string, n: nat, bound: nat) {
    n < bound && ((Digits(s) && n == ValueOf(s)) || (s != "" && s[0] == '+' && Digits(s[1..]) && n == ValueOf(s[1..])))
  }

  /** The same, or digits behind a minus sign, within 64 bits. */
  ghost predicate DenotesSigned(s: string, i: int) {
    && COUNTER_MIN <= i <= COUNTER_MAX
    && ((i >= 0 && DenotesUnsigned(s, i, COUNTER_MAX + 1)) || (s != "" && s[0] == '-' && Digits(s[1..]) && i == 0 - ValueOf(s[1..])))
  }

  lemma UnsignedIff(s: string, n: nat, bound: nat)
    ensures ParseUnsigned(s, bound) == Some(n) <==> DenotesUnsigned(s, n, bound)
  {
    hide ParseNat, ValueOf;
    ParseNatIff(s);
    if s != "" {
      ParseNatIff(s[1..]);
    }
  }

  lemma SignedIff(s: string, i: int)
    ensures ParseSigned(s) == Some(i) <==> DenotesSigned(s, i)
  {
    hide ParseNat, ValueOf, ParseUnsigned;
    if s != "" {
      ParseNatIff(s[1..]);
    }
    if i >= 0 {
      UnsignedIff(s, i, COUNTER_MAX + 1);
    }
    if ParseUnsigned(s, COUNTER_MAX + 1).Some? {
      UnsignedIff(s, ParseUnsigned(s, COUNTER_MAX + 1).value, COUNTER_MAX + 1);
    }
  }

  /** The fields denote the descriptor: pid, address, GC counter and, for a replica that has shut down, its final counter. */
  ghost predicate FieldsDenote<A>(parseAddress: string -> Option<A>, fields: seq<string>, d: Descriptor<A>) {
    && |fields| == (if d.finalCounter.Some? then 4 else 3)
    && DenotesUnsigned(fields[0], d.pid, PID_BOUND)
    && parseAddress(fields[1]) == Some(d.address)
    && DenotesSigned(fields[2], d.gcCounter)
    && (d.finalCounter.Some? ==> DenotesSigned(fields[3], d.finalCounter.value))
  }

  ghost predicate Names<A>(parseAddress: string -> Option<A>, path: string, d: Descriptor<A>) {
    exists fields: seq<string> :: NoCommas(fields) && FieldsDenote(parseAddress, fields, d) && EndsIn(path, Joined(fields))
  }

  lemma FieldsIff<A>(parseAddress: string -> Option<A>, path: string, d: Descriptor<A>)
    ensures Parse(parseAddress, path) == Some(d) <==> FieldsDenote(parseAddress, Split(AfterLast(path, '/'), ','), d)
  {
    hide Split, AfterLast, ParseUnsigned, ParseSigned, DenotesUnsigned, DenotesSigned;
    var parts := Split(AfterLast(path, '/'), ',');
    if |parts| == 3 || |parts| == 4 {
      UnsignedIff(parts[0], d.pid, PID_BOUND);
      SignedIff(parts[2], d.gcCounter);
      if |parts| == 4 && d.finalCounter.Some? {
        SignedIff(parts[3], d.finalCounter.value);
      }
    }
  }

  /** A path is read as a descriptor if and only if it ends in three or four fields, separated by commas, that denote it; everything else is rejected. */
  lemma ParseIff<A>(parseAddress: string -> Option<A>, path: string, d: Descriptor<A>)
    ensures Parse(parseAddress, path) == Some(d) <==> Names(parseAddress, path, d)
  {
    hide Split, AfterLast, Parse, FieldsDenote, Joined, EndsIn, NoCommas;
    FieldsIff(parseAddress, path, d);
    var name := AfterLast(path, '/');
    var parts := Split(name, ',');
    JoinedOfSplit(name);
    EndsInIff(path, name);
    if Names(parseAddress, path, d) {
      var fields :| NoCommas(fields) && FieldsDenote(parseAddress, fields, d) && EndsIn(path, Joined(fields));
      ThreeOrFour(parseAddress, fields, d);
      EndsInIff(path, Joined(fields));
      SplitOfJoined(fields);
    }
  }

  lemma ThreeOrFour<A>(parseAddress: string -> Option<A>, fields: seq<string>, d: Descriptor<A>)
    requires FieldsDenote(parseAddress, fields, d)
    ensures fields != []
  {
  }

  /** Every descriptor is recovered from its own name. */
  lemma NameRoundTrip<A>(printAddress: A -> string, parseAddress: string -> Option<A>, d: Descriptor<A>)
    requires InRange(d) && ',' !in printAddress(d.address) && parseAddress(printAddress(d.address)) == Some(d.address)
    requires '/' !in printAddress(d.address)
    ensures '/' !in Print(printAddress, d) && Parse(parseAddress, Print(printAddress, d)) == Some(d)
  {
    hide Split, PrintNat, PrintInt, Digits, ParseSigned, ParseUnsigned, AfterLast;
    PrintedParts(printAddress, d);
    PrintedNat(d.pid);
    DigitsOnly(PrintNat(d.pid));
    PrintedUnsigned(d.pid, PID_BOUND);
    PrintedSigned(d.gcCounter);
    if d.finalCounter.Some? {
      PrintedSigned(d.finalCounter.value);
    }
    NoDirectory(Print(printAddress, d), '/');
  }

  function Repeat(c: char, n: nat): string {
    if n == 0 then "" else Repeat(c, n - 1) + [c]
  }

  lemma {:induction false} TrimmedRepeat(s: string, c: char, n: nat)
    requires s == "" || s[|s| - 1] != c
    ensures TrimEnd(s + Repeat(c, n), c) == s
  {
    var all := s + Repeat(c, n);
    if n == 0 {
      assert all == s;
    } else {
      assert all[|all| - 1] == c && all[..|all| - 1] == s + Repeat(c, n - 1);
      TrimmedRepeat(s, c, n - 1);
    }
  }

  /** The object lies in the directory, under the descriptor's name, with one slash between however many the directory ends with. */
  lemma PathIs<A>(printAddress: A -> string, directory: string, slashes: nat, d: Descriptor<A>)
    requires directory == "" || directory[|directory| - 1] != '/'
    ensures ObjectPath(printAddress, directory + Repeat('/', slashes), d) == directory + "/" + Print(printAddress, d)
  {
    TrimmedRepeat(directory, '/', slashes);
  }

  /** Every descriptor is recovered from its object path, whatever the directory is called. */
  lemma PathRoundTrip<A>(printAddress: A -> string, parseAddress: string -> Option<A>, directory: string, d: Descriptor<A>)
    requires InRange(d) && ',' !in printAddress(d.address) && parseAddress(printAddress(d.address)) == Some(d.address)
    requires '/' !in printAddress(d.address)
    ensures Parse(parseAddress, ObjectPath(printAddress, directory, d)) == Some(d)
  {
    NameRoundTrip(printAddress, parseAddress, d);
    NameAfterDirectory(TrimEnd(directory, '/'), Print(printAddress, d), '/');
  }
}
