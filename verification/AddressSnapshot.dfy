/**
 The shipping address an order keeps as text: orders format it, invoices and
 mails parse it back into contact name, phone and street line.
 */
module AddressSnapshot {
  import opened Base
  import opened Text

  datatype Address = Address(
    line1: Option<string>, line2: Option<string>, city: Option<string>,
    state: Option<string>, zip: Option<string>, country: Option<string>,
    contactName: Option<string>, phone: Option<string>)

  datatype Snapshot = Snapshot(name: Option<string>, phone: Option<string>, line: string)

  const DASH := "\U{2014}"

  // ---------- formatting (orders.service.ts) ----------

  function Field(o: Option<string>): string {
    Trim(o.GetOr(""))
  }

  function StreetFields(a: Address): seq<string> {
    [a.line1.GetOr(""), a.line2.GetOr(""), a.city.GetOr(""), a.state.GetOr(""), a.zip.GetOr(""), a.country.GetOr("")]
  }

  function Street(a: Address): string {
    Join(SolidParts(StreetFields(a)), ", ")
  }

  function Line(s: string): seq<string> {
    if s != "" then [s] else []
  }

  function Lines(a: Address): seq<string> {
    Line(Field(a.contactName)) + Line(Field(a.phone)) + Line(Street(a))
  }

  function Format(a: Address): string {
    if Lines(a) != [] then Join(Lines(a), "\n") else DASH
  }

  // ---------- parsing (shipping-address.util.ts) ----------

  function CountDigits(s: string): nat {
    if s == "" then 0 else (if '0' <= s[0] <= '9' then 1 else 0) + CountDigits(s[1..])
  }

  predicate LooksLikePhone(s: string) {
    8 <= CountDigits(s) <= 15
  }

  function OrDash(s: string): string {
    if s != "" then s else DASH
  }

  function ParsedLines(lines: seq<string>): Snapshot
    requires lines != []
  {
    if |lines| == 1 then
      if LooksLikePhone(lines[0]) then Snapshot(None, Some(lines[0]), DASH) else Snapshot(None, None, lines[0])
    else
      var name := if LooksLikePhone(lines[0]) then None else Some(lines[0]);
      var k := if name.Some? then 1 else 0;
      var phone := if LooksLikePhone(lines[k]) then Some(lines[k]) else None;
      var rest := if phone.Some? then k + 1 else k;
      Snapshot(name, phone, OrDash(Join(lines[rest..], ", ")))
  }

  lemma {:induction false} SomeSolidLine(s: string)
    ensures Split(Trim(s), '\n') != []
    ensures Trim(s) != "" ==> SolidParts(Split(Trim(s), '\n')) != []
  {
    if Trim(s) != "" {
      TrimIsTrimmed(s);
      SolidLineOf(Trim(s));
    }
  }

  /** Text that starts with a visible character has a visible first line. */
  lemma SolidLineOf(s: string)
    requires s != "" && !IsSpace(s[0])
    ensures SolidParts(Split(s, '\n')) != []
  {
    var first := Split(s, '\n')[0];
    assert first != "" && first[0] == s[0];
    TrimKeepsVisible(first);
  }

  lemma TrimKeepsVisible(s: string)
    requires s != "" && !IsSpace(s[0])
    ensures Trim(s) != ""
  {
    TrimRightKeepsVisible(s);
  }

  lemma {:induction false} TrimRightKeepsVisible(s: string)
    requires s != "" && !IsSpace(s[0])
    ensures TrimRight(s) != ""
  {
    if IsSpace(s[|s| - 1]) {
      TrimRightKeepsVisible(s[..|s| - 1]);
    }
  }

  function Parsed(raw: Option<string>): Snapshot {
    var trimmed := Trim(raw.GetOr(""));
    if trimmed == "" || trimmed == DASH then Snapshot(None, None, DASH)
    else
      SomeSolidLine(raw.GetOr(""));
      ParsedLines(SolidParts(Split(trimmed, '\n')))
  }

  method ParseSnapshot(raw: Option<string>) returns (r: Snapshot)
    ensures r == Parsed(raw)
  {
    var trimmed := Trim(raw.GetOr(""));
    if trimmed == "" || trimmed == DASH {
      return Snapshot(None, None, DASH);
    }
    SomeSolidLine(raw.GetOr(""));
    var lines := SolidParts(Split(trimmed, '\n'));
    if |lines| == 1 {
      if LooksLikePhone(lines[0]) {
        return Snapshot(None, Some(lines[0]), DASH);
      }
      return Snapshot(None, None, lines[0]);
    }
    var name, phone, restStart := None, None, 0;
    if !LooksLikePhone(lines[0]) {
      name := Some(lines[0]);
      restStart := 1;
    }
    if |lines| > restStart && LooksLikePhone(lines[restStart]) {
      phone := Some(lines[restStart]);
      restStart := restStart + 1;
    }
    r := Snapshot(name, phone, OrDash(Join(lines[restStart..], ", ")));
  }

  // ---------- parsing undoes formatting ----------

  ghost predicate NoNewline(a: Address) {
    && (forall s :: s in StreetFields(a) ==> '\n' !in s)
    && '\n' !in a.contactName.GetOr("")
    && '\n' !in a.phone.GetOr("")
  }

  function Kept(s: string): Option<string> {
    if s != "" then Some(s) else None
  }

  /** What a reader of the order expects to get back. */
  function Expected(a: Address): Snapshot {
    Snapshot(Kept(Field(a.contactName)), Kept(Field(a.phone)), OrDash(Street(a)))
  }

  /** What the sender of the address can check before it is stored; a name alone cannot be told from a street. */
  predicate Readable(a: Address) {
    && (Field(a.contactName) != "" ==> !LooksLikePhone(Field(a.contactName)))
    && (if Field(a.phone) != "" then LooksLikePhone(Field(a.phone)) else !LooksLikePhone(Street(a)))
    && (Street(a) == "" && Field(a.contactName) != "" ==> Field(a.phone) != "")
  }

  lemma {:induction false} JoinAvoids(parts: seq<string>, sep: string, c: char)
    requires c !in sep && forall p :: p in parts ==> c !in p
    ensures c !in Join(parts, sep)
  {
    if |parts| > 1 {
      JoinAvoids(parts[1..], sep, c);
    }
  }

  lemma StreetShape(a: Address)
    requires NoNewline(a) && Street(a) != ""
    ensures Solid(Street(a)) && '\n' !in Street(a)
  {
    var parts := SolidParts(StreetFields(a));
    SolidPartsShape(StreetFields(a));
    JoinSolid(parts, ", ");
    JoinAvoids(parts, ", ", '\n');
  }

  lemma FieldShape(o: Option<string>)
    requires '\n' !in o.GetOr("")
    ensures Field(o) != "" ==> Solid(Field(o))
    ensures '\n' !in Field(o)
  {
    TrimIsTrimmed(o.GetOr(""));
  }

  /** Solid lines survive being written one per line and read again. */
  lemma LinesReadBack(lines: seq<string>)
    requires lines != [] && lines != [DASH]
    requires forall l :: l in lines ==> Solid(l) && '\n' !in l
    ensures Parsed(Some(Join(lines, "\n"))) == ParsedLines(lines)
  {
    var text := Join(lines, "\n");
    JoinSolid(lines, "\n");
    TrimFixes(text);
    assert "\n" == ['\n'];
    SplitJoin(lines, '\n');
    SolidPartsFixed(lines);
    SplitOne(DASH, '\n');
  }

  /**
   For every address without line breaks: the stored snapshot is read back as the same
   name, phone and street line exactly when the name cannot be taken for a phone, the phone
   (or, without one, the street) can or cannot, and a name does not stand alone.
   */
  lemma RoundTrip(a: Address)
    requires NoNewline(a)
    ensures Parsed(Some(Format(a))) == Expected(a) <==> Readable(a)
  {
    var name, phone, street := Field(a.contactName), Field(a.phone), Street(a);
    hide Field, Street, Trim, Solid, Trimmed, Join;
    DashReadsBack();
    if Lines(a) == [] || Lines(a) == [DASH] {
      DashLines(name, phone, street);
      assert Format(a) == DASH || Format(a) == Join([DASH], "\n");
    } else {
      FieldShape(a.contactName);
      FieldShape(a.phone);
      if street != "" {
        StreetShape(a);
      }
      LinesReadBack(Lines(a));
      hide Parsed;
      ThreeLines(name, phone, street);
    }
  }

  /** The snapshot of up to three lines in their order. */
  lemma ThreeLines(name: string, phone: string, street: string)
    requires Line(name) + Line(phone) + Line(street) != []
    ensures var lines := Line(name) + Line(phone) + Line(street);
            ParsedLines(lines) == Snapshot(Kept(name), Kept(phone), OrDash(street))
            <==> && (name != "" ==> !LooksLikePhone(name))
                 && (if phone != "" then LooksLikePhone(phone) else !LooksLikePhone(street))
                 && (street == "" && name != "" ==> phone != "")
  {
    hide LooksLikePhone;
    NoPhone();
    JoinOne(street, ", ");
    JoinOne(phone, ", ");
    JoinNone(", ");
    assert [name, street][1..] == [street] == [phone, street][1..];
    assert [name, phone, street][1..] == [phone, street] && [name, phone, street][2..] == [street];
    assert [name, phone][1..] == [phone] && [name, phone][2..] == [];
    assert [street][1..] == [] == [phone][1..];
    assert Line(name) + Line(phone) + Line(street)
        == if name != "" && phone != "" && street != "" then [name, phone, street]
           else if name != "" && phone != "" then [name, phone]
           else if name != "" && street != "" then [name, street]
           else if phone != "" && street != "" then [phone, street]
           else if name != "" then [name] else if phone != "" then [phone] else [street];
  }

  /** Nothing but dashes: the line is a dash, or there is none. */
  lemma DashLines(name: string, phone: string, street: string)
    requires Line(name) + Line(phone) + Line(street) == [] || Line(name) + Line(phone) + Line(street) == [DASH]
    ensures Snapshot(None, None, DASH) == Snapshot(Kept(name), Kept(phone), OrDash(street))
       <==> && (name != "" ==> !LooksLikePhone(name))
            && (if phone != "" then LooksLikePhone(phone) else !LooksLikePhone(street))
            && (street == "" && name != "" ==> phone != "")
  {
    DashReadsBack();
    NoPhone();
    var lines := Line(name) + Line(phone) + Line(street);
    if lines == [DASH] {
      assert lines[0] == if name != "" then name else if phone != "" then phone else street;
      assert |Line(name)| + |Line(phone)| + |Line(street)| == 1;
    }
  }

  lemma NoPhone()
    ensures !LooksLikePhone("")
  {
  }

  lemma JoinNone(sep: string)
    ensures Join([], sep) == ""
  {
  }

  lemma JoinOne(s: string, sep: string)
    ensures Join([s], sep) == s
  {
  }

  lemma DashReadsBack()
    ensures Parsed(Some(Join([DASH], "\n"))) == Parsed(Some(DASH)) == Snapshot(None, None, DASH)
    ensures !LooksLikePhone(DASH)
  {
  }

  // ---------- phones and streets ----------

  function Digits(s: string): set<nat> {
    set k: nat | k < |s| && '0' <= s[k] <= '9'
  }

  lemma {:induction false} CountDigitsCounts(s: string)
    ensures CountDigits(s) == |Digits(s)|
  {
    if s != "" {
      CountDigitsCounts(s[1..]);
      var first: set<nat> := if '0' <= s[0] <= '9' then {0} else {};
      var later := set k: nat | k in Digits(s[1..]) :: k + 1;
      ShiftedSize(Digits(s[1..]), later);
      assert Digits(s) == first + later by {
        forall k: nat | k in Digits(s)
          ensures k in first + later
        {
          if k > 0 {
            assert k - 1 in Digits(s[1..]);
          }
        }
      }
    }
  }

  lemma {:induction false} ShiftedSize(a: set<nat>, b: set<nat>)
    requires b == set k: nat | k in a :: k + 1
    ensures |b| == |a|
    decreases |a|
  {
    if a != {} {
      var x :| x in a;
      var rest := set k: nat | k in a - {x} :: k + 1;
      assert x + 1 in b && x + 1 !in rest;
      forall y | y in b
        ensures y in rest + {x + 1}
      {
        if y != x + 1 {
          assert y - 1 in a - {x};
        }
      }
      assert b - {x + 1} == rest;
      ShiftedSize(a - {x}, b - {x + 1});
    }
  }

  /** A text is taken for a phone exactly when eight to fifteen of its characters are digits. */
  lemma PhoneExactly(s: string)
    ensures LooksLikePhone(s) <==> 8 <= |Digits(s)| <= 15
  {
    CountDigitsCounts(s);
  }

  /** The street line keeps every part of the address, in order. */
  lemma StreetKeepsAll(line1: string, line2: string, city: string, state: string, zip: string, country: string,
                       name: Option<string>, phone: Option<string>)
    requires forall p :: p in [line1, line2, city, state, zip, country] ==> Solid(p) && ',' !in p
    ensures var a := Address(Some(line1), Some(line2), Some(city), Some(state), Some(zip), Some(country), name, phone);
            SolidParts(Split(Street(a), ',')) == [line1, line2, city, state, zip, country]
  {
    var parts := [line1, line2, city, state, zip, country];
    SolidPartsFixed(parts);
    CommaParts(parts);
  }

  /** Splitting at the commas and trimming undoes the joining. */
  lemma {:induction false} CommaParts(parts: seq<string>)
    requires parts != [] && forall p :: p in parts ==> Solid(p) && ',' !in p
    ensures SolidParts(Split(Join(parts, ", "), ',')) == parts
  {
    assert parts[0] in parts;
    TrimFixes(parts[0]);
    if |parts| == 1 {
      SplitOne(parts[0], ',');
      assert [parts[0]][1..] == [];
      assert parts == [parts[0]];
    } else {
      var more := Join(parts[1..], ", ");
      CommaParts(parts[1..]);
      assert Join(parts, ", ") == parts[0] + [','] + (" " + more);
      SplitCons(parts[0], " " + more, ',');
      SpacedFirst(more);
      assert parts == [parts[0]] + parts[1..];
    }
  }

  /** A space before the text does not show in its trimmed parts. */
  lemma SpacedFirst(s: string)
    ensures SolidParts(Split(" " + s, ',')) == SolidParts(Split(s, ','))
  {
    assert (" " + s)[1..] == s;
    var ps := Split(s, ',');
    assert Split(" " + s, ',') == [" " + ps[0]] + ps[1..];
    assert (" " + ps[0])[1..] == ps[0];
  }
}
