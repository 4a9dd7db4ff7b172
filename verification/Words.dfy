/**
 Amounts in words on tax invoices (crore / lakh / thousand / hundred), with an
 independent evaluator that reads the words back.
 */
module Words {
  import opened Base
  import opened Text

  const ONES: seq<string> := [
    "", "One", "Two", "Three", "Four", "Five", "Six", "Seven", "Eight", "Nine", "Ten",
    "Eleven", "Twelve", "Thirteen", "Fourteen", "Fifteen", "Sixteen", "Seventeen", "Eighteen", "Nineteen"]
  const TENS: seq<string> := [
    "", "", "Twenty", "Thirty", "Forty", "Fifty", "Sixty", "Seventy", "Eighty", "Ninety"]

  const THOUSAND: nat := 1000
  const LAKH: nat := 100 * THOUSAND
  const CRORE: nat := 100 * LAKH

  // ---------- the printer ----------

  /** Reading past the end of the table yields `undefined`, which prints as that word. */
  function TensWord(t: nat): string {
    if t < |TENS| then TENS[t] else "undefined"
  }

  function TwoDigits(n: nat): string {
    if n < 20 then ONES[n]
    else Trim(TensWord(n / 10) + (if n % 10 != 0 then " " + ONES[n % 10] else ""))
  }

  function ThreeDigits(n: nat): string
    requires n < 1000
  {
    if n < 100 then TwoDigits(n)
    else ONES[n / 100] + " Hundred" + (if n % 100 != 0 then " " + TwoDigits(n % 100) else "")
  }

  /** Appends one scale of the amount; `name` carries its leading space. */
  function AddGroup(parts: seq<string>, n: nat, name: string): seq<string> {
    if n != 0 then parts + [TwoDigits(n) + name] else parts
  }

  function Parts(n: nat): seq<string> {
    var belowCrore := n % CRORE;
    var belowLakh := belowCrore % LAKH;
    var belowThousand := belowLakh % THOUSAND;
    var scaled := AddGroup(AddGroup(AddGroup([], n / CRORE, " Crore"), belowCrore / LAKH, " Lakh"),
                           belowLakh / THOUSAND, " Thousand");
    if belowThousand != 0 then scaled + [ThreeDigits(belowThousand)] else scaled
  }

  function RupeesInWords(n: nat): string {
    if n == 0 then "Zero only" else Trim(Join(Parts(n), " ")) + " only"
  }

  /** Half a rupee rounds up, as `Math.round` does. */
  function RupeesOf(paise: nat): nat {
    (paise + 50) / 100
  }

  /** The words of the nearest whole amount in rupees, which they give back below one hundred crore. */
  method AmountInWords(paise: nat) returns (words: string)
    ensures words == RupeesInWords(RupeesOf(paise))
    ensures paise < 100 * CRORE * 100 - 50 ==>
              ReadRupees(words).Some? && -50 < 100 * ReadRupees(words).value - paise <= 50
    ensures paise >= 100 * CRORE * 100 - 50 ==> ReadRupees(words).None?
  {
    hide ReadRupees;
    RoundTrip(RupeesOf(paise));
    var rupees := RupeesOf(paise);
    if rupees == 0 {
      return "Zero only";
    }
    var parts: seq<string> := [];
    var n := rupees;
    var crore := n / 10000000;
    n := n % 10000000;
    var lakh := n / 100000;
    n := n % 100000;
    var thousand := n / 1000;
    n := n % 1000;
    var hundred := n;
    if crore != 0 {
      parts := parts + [TwoDigits(crore) + " Crore"];
    }
    assert parts == AddGroup([], crore, " Crore");
    if lakh != 0 {
      parts := parts + [TwoDigits(lakh) + " Lakh"];
    }
    if thousand != 0 {
      parts := parts + [TwoDigits(thousand) + " Thousand"];
    }
    if hundred != 0 {
      parts := parts + [ThreeDigits(hundred)];
    }
    words := Trim(Join(parts, " ")) + " only";
  }

  // ---------- the evaluator ----------

  datatype Word = Units(n: nat) | Hundred | Scale(n: nat) | Only | Zero | Unknown

  function ReadWord(w: string): Word {
    match w
    case "One" => Units(1) case "Two" => Units(2) case "Three" => Units(3) case "Four" => Units(4)
    case "Five" => Units(5) case "Six" => Units(6) case "Seven" => Units(7) case "Eight" => Units(8)
    case "Nine" => Units(9) case "Ten" => Units(10) case "Eleven" => Units(11) case "Twelve" => Units(12)
    case "Thirteen" => Units(13) case "Fourteen" => Units(14) case "Fifteen" => Units(15)
    case "Sixteen" => Units(16) case "Seventeen" => Units(17) case "Eighteen" => Units(18)
    case "Nineteen" => Units(19) case "Twenty" => Units(20) case "Thirty" => Units(30)
    case "Forty" => Units(40) case "Fifty" => Units(50) case "Sixty" => Units(60)
    case "Seventy" => Units(70) case "Eighty" => Units(80) case "Ninety" => Units(90)
    case "Hundred" => Hundred case "Thousand" => Scale(THOUSAND) case "Lakh" => Scale(LAKH)
    case "Crore" => Scale(CRORE) case "Zero" => Zero case "only" => Only
    case _ => Unknown
  }

  /** Adds up words from left to right: `total` is closed, `run` waits for its scale. */
  function Evaluate(tokens: seq<string>, total: nat, run: nat): Option<nat> {
    if tokens == [] then None
    else match ReadWord(tokens[0])
      case Units(k) => Evaluate(tokens[1..], total, run + k)
      case Hundred => Evaluate(tokens[1..], total, run * 100)
      case Scale(k) => Evaluate(tokens[1..], total + run * k, 0)
      case Zero => Evaluate(tokens[1..], total, run)
      case Only => if tokens == ["only"] then Some(total + run) else None
      case Unknown => None
  }

  function ReadRupees(words: string): Option<nat> {
    Evaluate(Split(words, ' '), 0, 0)
  }

  // ---------- reading back what was printed ----------

  /** One printed word: neither empty nor broken by a space. */
  predicate OneWord(w: string) {
    w != [] && ' ' !in w && Trimmed(w)
  }

  lemma OnesWords(k: nat)
    requires 0 < k < 20
    ensures OneWord(ONES[k]) && ReadWord(ONES[k]) == Units(k)
  {
  }

  lemma TensWords(t: nat)
    requires 2 <= t
    ensures OneWord(TensWord(t))
    ensures ReadWord(TensWord(t)) == if t < 10 then Units(10 * t) else Unknown
  {
  }

  lemma ScaleWords()
    ensures OneWord("Crore") && ReadWord("Crore") == Scale(CRORE)
    ensures OneWord("Lakh") && ReadWord("Lakh") == Scale(LAKH)
    ensures OneWord("Thousand") && ReadWord("Thousand") == Scale(THOUSAND)
    ensures OneWord("Zero") && ReadWord("Zero") == Zero
    ensures OneWord("only") && ReadWord("only") == Only
  {
  }

  function TwoTokens(n: nat): seq<string> {
    if n == 0 then []
    else if n < 20 then [ONES[n]]
    else [TensWord(n / 10)] + (if n % 10 != 0 then [ONES[n % 10]] else [])
  }

  function ThreeTokens(n: nat): seq<string>
    requires n < 1000
  {
    if n < 100 then TwoTokens(n) else [ONES[n / 100], "Hundred"] + TwoTokens(n % 100)
  }

  function AddTokens(groups: seq<seq<string>>, n: nat, name: string): seq<seq<string>> {
    if n != 0 then groups + [TwoTokens(n) + [name]] else groups
  }

  function PartTokens(n: nat): seq<seq<string>> {
    var belowCrore := n % CRORE;
    var belowLakh := belowCrore % LAKH;
    var belowThousand := belowLakh % THOUSAND;
    var scaled := AddTokens(AddTokens(AddTokens([], n / CRORE, "Crore"), belowCrore / LAKH, "Lakh"),
                            belowLakh / THOUSAND, "Thousand");
    if belowThousand != 0 then scaled + [ThreeTokens(belowThousand)] else scaled
  }

  predicate AllWords(ts: seq<string>) {
    ts != [] && forall t :: t in ts ==> OneWord(t)
  }

  function Flat(groups: seq<seq<string>>): seq<string> {
    if groups == [] then [] else groups[0] + Flat(groups[1..])
  }

  function JoinEach(groups: seq<seq<string>>): seq<string> {
    seq(|groups|, i requires 0 <= i < |groups| => Join(groups[i], " "))
  }

  lemma {:induction false} JoinConcat(a: seq<string>, b: seq<string>)
    requires a != [] && b != []
    ensures Join(a + b, " ") == Join(a, " ") + " " + Join(b, " ")
  {
    if |a| == 1 {
      assert (a + b)[1..] == b;
    } else {
      JoinConcat(a[1..], b);
      assert (a + b)[1..] == a[1..] + b;
    }
  }

  lemma {:induction false} JoinFlat(groups: seq<seq<string>>)
    requires groups != [] && forall g :: g in groups ==> AllWords(g)
    ensures Join(JoinEach(groups), " ") == Join(Flat(groups), " ")
    ensures AllWords(Flat(groups))
  {
    assert groups[0] in groups;
    if |groups| == 1 {
      assert Flat(groups) == groups[0] + [] == groups[0];
    } else {
      JoinFlat(groups[1..]);
      assert JoinEach(groups)[1..] == JoinEach(groups[1..]);
      JoinConcat(groups[0], Flat(groups[1..]));
    }
  }

  lemma TwoWords(a: string, b: string)
    requires OneWord(a) && OneWord(b)
    ensures AllWords([a, b]) && Trim(a + (" " + b)) == Join([a, b], " ")
  {
  }

  lemma OneWordAlone(a: string)
    requires OneWord(a)
    ensures AllWords([a]) && Trim(a + "") == Join([a], " ") == a
  {
  }

  lemma TwoDigitsTokens(n: nat)
    requires 0 < n
    ensures AllWords(TwoTokens(n)) && TwoDigits(n) == Join(TwoTokens(n), " ")
  {
    if n < 20 {
      OnesWords(n);
      OneWordAlone(ONES[n]);
    } else {
      var t, o := n / 10, n % 10;
      TensWords(t);
      if o == 0 {
        OneWordAlone(TensWord(t));
        assert TwoTokens(n) == [TensWord(t)];
      } else {
        OnesWords(o);
        TwoWords(TensWord(t), ONES[o]);
        assert TwoTokens(n) == [TensWord(t), ONES[o]];
      }
    }
  }

  lemma HundredWords(h: string, rest: seq<string>)
    requires OneWord(h) && (rest == [] || AllWords(rest))
    ensures AllWords([h, "Hundred"] + rest)
    ensures h + " Hundred" + (if rest != [] then " " + Join(rest, " ") else "") == Join([h, "Hundred"] + rest, " ")
  {
  }

  lemma ThreeDigitsTokens(n: nat)
    requires 0 < n < 1000
    ensures AllWords(ThreeTokens(n)) && ThreeDigits(n) == Join(ThreeTokens(n), " ")
  {
    if n < 100 {
      TwoDigitsTokens(n);
    } else {
      OnesWords(n / 100);
      if n % 100 != 0 {
        TwoDigitsTokens(n % 100);
      }
      HundredWords(ONES[n / 100], TwoTokens(n % 100));
    }
  }

  /** The printed parts are the token groups, each joined by spaces. */
  ghost predicate Prints(parts: seq<string>, groups: seq<seq<string>>) {
    parts == JoinEach(groups) && forall g :: g in groups ==> AllWords(g)
  }

  lemma AddGroupPrints(parts: seq<string>, groups: seq<seq<string>>, n: nat, name: string)
    requires Prints(parts, groups) && OneWord(name)
    ensures Prints(AddGroup(parts, n, " " + name), AddTokens(groups, n, name))
  {
    if n != 0 {
      TwoDigitsTokens(n);
      JoinConcat(TwoTokens(n), [name]);
      assert TwoDigits(n) + " " + name == TwoDigits(n) + (" " + name);
    }
  }

  lemma PartsTokens(n: nat)
    requires 0 < n
    ensures Prints(Parts(n), PartTokens(n)) && PartTokens(n) != []
  {
    hide TwoDigits, ThreeDigits, TwoTokens, ThreeTokens, ReadWord, OneWord, Join;
    var belowCrore := n % CRORE;
    var belowLakh := belowCrore % LAKH;
    var p1, t1 := AddGroup([], n / CRORE, " Crore"), AddTokens([], n / CRORE, "Crore");
    var p2, t2 := AddGroup(p1, belowCrore / LAKH, " Lakh"), AddTokens(t1, belowCrore / LAKH, "Lakh");
    assert " " + "Crore" == " Crore" && " " + "Lakh" == " Lakh" && " " + "Thousand" == " Thousand";
    ScaleWords();
    AddGroupPrints([], [], n / CRORE, "Crore");
    AddGroupPrints(p1, t1, belowCrore / LAKH, "Lakh");
    AddGroupPrints(p2, t2, belowLakh / THOUSAND, "Thousand");
    if belowLakh % THOUSAND != 0 {
      ThreeDigitsTokens(belowLakh % THOUSAND);
    }
  }

  lemma SplitWords(ts: seq<string>)
    requires AllWords(ts)
    ensures Split(Trim(Join(ts, " ")) + " only", ' ') == ts + ["only"]
  {
    JoinSolid(ts, " ");
    TrimFixes(Join(ts, " "));
    JoinConcat(ts, ["only"]);
    assert Join(ts, " ") + " only" == Join(ts, " ") + " " + "only";
    assert [' '] == " ";
    ScaleWords();
    SplitJoin(ts + ["only"], ' ');
  }

  lemma PrintedTokens(n: nat)
    requires 0 < n
    ensures Split(RupeesInWords(n), ' ') == Flat(PartTokens(n)) + ["only"]
  {
    PartsTokens(n);
    JoinFlat(PartTokens(n));
    SplitWords(Flat(PartTokens(n)));
  }

  lemma EvaluateTwo(n: nat, rest: seq<string>, total: nat, run: nat)
    ensures Evaluate(TwoTokens(n) + rest, total, run)
         == if n < 100 then Evaluate(rest, total, run + n) else None
  {
    hide ReadWord, OneWord, TensWord;
    var ts := TwoTokens(n) + rest;
    if n == 0 {
      assert ts == rest;
    } else if n < 20 {
      OnesWords(n);
      assert ts[1..] == rest;
    } else {
      TensWords(n / 10);
      if n % 10 != 0 {
        OnesWords(n % 10);
        assert ts[1..] == [ONES[n % 10]] + rest;
        assert ts[1..][1..] == rest;
      } else {
        assert ts[1..] == rest;
      }
    }
  }

  lemma EvaluateThree(n: nat, rest: seq<string>, total: nat)
    requires n < 1000
    ensures Evaluate(ThreeTokens(n) + rest, total, 0) == Evaluate(rest, total, n)
  {
    hide OneWord, TwoTokens;
    if n < 100 {
      EvaluateTwo(n, rest, total, 0);
    } else {
      OnesWords(n / 100);
      var ts := ThreeTokens(n) + rest;
      assert ts[1..] == ["Hundred"] + (TwoTokens(n % 100) + rest);
      assert ts[1..][1..] == TwoTokens(n % 100) + rest;
      EvaluateTwo(n % 100, rest, total, n / 100 * 100);
    }
  }

  lemma {:induction false} FlatSnoc(a: seq<seq<string>>, g: seq<string>)
    ensures Flat(a + [g]) == Flat(a) + g
  {
    if a == [] {
      assert Flat([g]) == g + [] == g;
    } else {
      FlatSnoc(a[1..], g);
      assert (a + [g])[1..] == a[1..] + [g];
      assert a[0] + (Flat(a[1..]) + g) == a[0] + Flat(a[1..]) + g;
    }
  }

  function GroupTokens(n: nat, name: string): seq<string> {
    if n != 0 then TwoTokens(n) + [name] else []
  }

  lemma AddTokensFlat(groups: seq<seq<string>>, n: nat, name: string)
    ensures Flat(AddTokens(groups, n, name)) == Flat(groups) + GroupTokens(n, name)
  {
    if n != 0 {
      FlatSnoc(groups, TwoTokens(n) + [name]);
    } else {
      assert Flat(groups) + [] == Flat(groups);
    }
  }

  lemma FlatParts(c: nat, l: nat, t: nat, below: nat, cn: string, ln: string, tn: string)
    requires below < 1000
    ensures var scaled := AddTokens(AddTokens(AddTokens([], c, cn), l, ln), t, tn);
            Flat(if below != 0 then scaled + [ThreeTokens(below)] else scaled) + ["only"]
            == GroupTokens(c, cn) + (GroupTokens(l, ln) + (GroupTokens(t, tn) + (ThreeTokens(below) + ["only"])))
  {
    var t1 := AddTokens([], c, cn);
    var t2 := AddTokens(t1, l, ln);
    var t3 := AddTokens(t2, t, tn);
    AddTokensFlat([], c, cn);
    AddTokensFlat(t1, l, ln);
    AddTokensFlat(t2, t, tn);
    assert [] + GroupTokens(c, cn) == GroupTokens(c, cn);
    if below != 0 {
      FlatSnoc(t3, ThreeTokens(below));
    } else {
      assert Flat(t3) + [] == Flat(t3);
    }
    Reassociate(GroupTokens(c, cn), GroupTokens(l, ln), GroupTokens(t, tn), ThreeTokens(below), ["only"]);
  }

  lemma Reassociate(a: seq<string>, b: seq<string>, c: seq<string>, d: seq<string>, e: seq<string>)
    ensures a + b + c + d + e == a + (b + (c + (d + e)))
  {
  }

  lemma EvaluateGroup(n: nat, name: string, scale: nat, rest: seq<string>, total: nat)
    requires ReadWord(name) == Scale(scale)
    ensures Evaluate(GroupTokens(n, name) + rest, total, 0)
         == if n < 100 then Evaluate(rest, total + n * scale, 0) else None
  {
    hide ReadWord, OneWord;
    if n == 0 {
      assert [] + rest == rest;
    } else {
      var tail := [name] + rest;
      assert TwoTokens(n) + [name] + rest == TwoTokens(n) + tail;
      EvaluateTwo(n, tail, total, 0);
      assert tail[1..] == rest;
    }
  }

  lemma EvaluateParts(c: nat, l: nat, t: nat, below: nat, cn: string, ln: string, tn: string)
    requires l < 100 && t < 100 && below < 1000
    requires ReadWord(cn) == Scale(CRORE) && ReadWord(ln) == Scale(LAKH) && ReadWord(tn) == Scale(THOUSAND)
    ensures Evaluate(GroupTokens(c, cn) +
                     (GroupTokens(l, ln) + (GroupTokens(t, tn) + (ThreeTokens(below) + ["only"]))), 0, 0)
         == if c < 100 then Some(c * CRORE + l * LAKH + t * THOUSAND + below) else None
  {
    hide *;
    var r3 := ThreeTokens(below) + ["only"];
    var r2 := GroupTokens(t, tn) + r3;
    var r1 := GroupTokens(l, ln) + r2;
    EvaluateGroup(c, cn, CRORE, r1, 0);
    EvaluateGroup(l, ln, LAKH, r2, c * CRORE);
    EvaluateGroup(t, tn, THOUSAND, r3, c * CRORE + l * LAKH);
    EvaluateThree(below, ["only"], c * CRORE + l * LAKH + t * THOUSAND);
    OnlyEnds(c * CRORE + l * LAKH + t * THOUSAND, below);
  }

  lemma OnlyEnds(total: nat, run: nat)
    ensures Evaluate(["only"], total, run) == Some(total + run)
  {
  }

  lemma Digits(n: nat)
    ensures var c, belowCrore := n / CRORE, n % CRORE;
            var l, belowLakh := belowCrore / LAKH, belowCrore % LAKH;
            var t, below := belowLakh / THOUSAND, belowLakh % THOUSAND;
            && l < 100 && t < 100 && below < 1000
            && n == c * CRORE + l * LAKH + t * THOUSAND + below
            && (c < 100 <==> n < 100 * CRORE)
  {
  }

  lemma PartTokensWorth(n: nat)
    ensures Evaluate(Flat(PartTokens(n)) + ["only"], 0, 0) == if n < 100 * CRORE then Some(n) else None
  {
    hide ReadWord, TwoTokens, ThreeTokens, Evaluate, Flat, AddTokens, GroupTokens;
    var belowCrore := n % CRORE;
    var belowLakh := belowCrore % LAKH;
    ScaleWords();
    Digits(n);
    FlatParts(n / CRORE, belowCrore / LAKH, belowLakh / THOUSAND, belowLakh % THOUSAND, "Crore", "Lakh", "Thousand");
    EvaluateParts(n / CRORE, belowCrore / LAKH, belowLakh / THOUSAND, belowLakh % THOUSAND,
                  "Crore", "Lakh", "Thousand");
  }

  /**
   Reading the printed words gives back the amount exactly below one hundred crore;
   from there on the crore table is exhausted and the words no longer denote a number.
   */
  lemma RoundTrip(n: nat)
    ensures ReadRupees(RupeesInWords(n)) == if n < 100 * CRORE then Some(n) else None
  {
    if n == 0 {
      ZeroReadsBack();
    } else {
      PrintedTokens(n);
      PartTokensWorth(n);
    }
  }

  lemma ZeroReadsBack()
    ensures ReadRupees("Zero only") == Some(0)
  {
    ScaleWords();
    var ts := ["Zero", "only"];
    assert Join(ts, " ") == "Zero only" by {
      assert "Zero" + " " + "only" == "Zero only";
    }
    SplitJoin(ts, ' ');
    assert [' '] == " ";
    assert ts[1..] == ["only"];
  }

  /** Two amounts below one hundred crore never share their words. */
  lemma Injective(m: nat, n: nat)
    requires m < 100 * CRORE
    ensures RupeesInWords(m) == RupeesInWords(n) <==> m == n
  {
    RoundTrip(m);
    RoundTrip(n);
  }

  /** The bound is sharp: from one hundred crore on, different amounts share their words. */
  lemma HundredCroreCollides()
    ensures RupeesInWords(100 * CRORE) == RupeesInWords(110 * CRORE) == "undefined Crore only"
  {
    CrorePart(100);
    CrorePart(110);
  }

  lemma CrorePart(crore: nat)
    requires crore == 100 || crore == 110
    ensures RupeesInWords(crore * CRORE) == "undefined Crore only"
  {
    hide TwoDigits, ThreeDigits, Trim;
    assert crore * CRORE / CRORE == crore && crore * CRORE % CRORE == 0;
    assert Parts(crore * CRORE) == [TwoDigits(crore) + " Crore"];
    UndefinedTens(crore);
    UndefinedCrore();
  }

  lemma UndefinedTens(n: nat)
    requires n == 100 || n == 110
    ensures TwoDigits(n) == "undefined"
  {
  }

  lemma UndefinedCrore()
    ensures Trim("undefined" + " Crore") + " only" == "undefined Crore only"
  {
  }
}
