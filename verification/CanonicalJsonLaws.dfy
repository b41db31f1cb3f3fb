/** What the canonical form is for: reading it back gives the normalized value, and
    it tells apart all values that differ in more than the order of their keys. */
module CanonicalJsonLaws {
  import opened Wrappers
  import opened Text
  import opened CanonicalJson

  // -------------------------------------------------------------- round trip

  lemma EscapeRoundTrip(c: char, rest: string)
    ensures EscapeChar(c) != "" && EscapeChar(c)[0] != '"' && EscapeChar(c)[0] as int >= 32
    ensures
      var s := EscapeChar(c) + rest;
      (if s[0] == '\\' then ReadEscape(s[1..]) else Read(s[0], s[1..])) == Read(c, rest)
  {
    var n := c as int;
    var e := EscapeChar(c);
    var s := e + rest;
    assert s[1..] == e[1..] + rest;
    if e == [c] {
      assert s[1..] == rest;
    } else if |e| == 2 {
      assert s[1..][1..] == rest;
    } else {
      assert e == "\\u00" + [HexDigit(n / 16), HexDigit(n % 16)];
      var h := s[1..][1..];
      assert h == ['0', '0', HexDigit(n / 16), HexDigit(n % 16)] + rest;
      assert h[4..] == rest;
      assert n == 16 * (n / 16) + n % 16;
    }
  }

  /** Only quotes, backslashes and control characters are escaped, in two characters where
      JSON has a short form and in six with lower-case digits otherwise. */
  lemma EscapesOnly(c: char)
    ensures EscapeChar(c) == [c] <==> c != '"' && c != '\\' && c as int >= 32
    ensures |EscapeChar(c)| == 2 <==> c in "\"\\\n\r\t" || c as int == 8 || c as int == 12
    ensures |EscapeChar(c)| in {1, 2, 6}
    ensures |EscapeChar(c)| == 6 ==> forall i :: 0 <= i < 6 ==> !('A' <= EscapeChar(c)[i] <= 'Z')
  {
  }

  lemma {:induction false} StringRoundTrip(s: string, rest: string)
    ensures ReadString(Escape(s) + "\"" + rest) == Read(s, rest)
  {
    var t := Escape(s) + "\"" + rest;
    if s == "" {
      assert t[1..] == rest;
    } else {
      var tail := Escape(s[1..]) + "\"" + rest;
      assert t == EscapeChar(s[0]) + tail;
      EscapeRoundTrip(s[0], tail);
      StringRoundTrip(s[1..], rest);
      assert [s[0]] + s[1..] == s;
    }
  }

  /** What may follow a value inside a document. */
  predicate Closes(rest: string) { rest == "" || rest[0] in ",]}" }

  lemma NumberRoundTrip(n: int, rest: string)
    requires Closes(rest)
    ensures ReadNumber(IntText(n) + rest) == Read(Num(n), rest)
  {
    hide ReadNumber, NatText;
    if n < 0 { NegativeRoundTrip(0 - n, rest); } else { NaturalRoundTrip(n, rest); }
  }

  lemma NaturalRoundTrip(n: nat, rest: string)
    requires Closes(rest)
    ensures ReadNumber(NatText(n) + rest) == Read(Num(n), rest)
  {
    hide DigitRun, NatValue, NatText;
    var digits := NatText(n);
    var s := digits + rest;
    NatRoundTrip(n);
    DigitRunOf(digits, rest);
    assert s[0] == digits[0] && s[0..] == s;
    assert s[..|digits|] == digits && s[|digits|..] == rest;
  }

  lemma NegativeRoundTrip(n: nat, rest: string)
    requires Closes(rest) && n > 0
    ensures ReadNumber("-" + NatText(n) + rest) == Read(Num(0 - n), rest)
  {
    hide DigitRun, NatValue, NatText;
    var digits := NatText(n);
    var s := digits + rest;
    NatRoundTrip(n);
    DigitRunOf(digits, rest);
    assert ("-" + digits + rest)[1..] == s;
    assert s[..|digits|] == digits && s[|digits|..] == rest;
  }

  /** One unfolding of the reader, by the first character. */
  lemma ReadComposite(s: string)
    requires s != ""
    ensures s[0] == '[' && |s| > 1 && s[1] != ']' && ReadItems(s[1..]).Read? ==>
              ReadValue(s) == Read(Arr(ReadItems(s[1..]).value), ReadItems(s[1..]).rest)
    ensures s[0] == '{' && |s| > 1 && s[1] != '}' && ReadMembers(s[1..]).Read? ==>
              ReadValue(s) == Read(Obj(ReadMembers(s[1..]).value), ReadMembers(s[1..]).rest)
    ensures s[0] == '"' && ReadString(s[1..]).Read? ==>
              ReadValue(s) == Read(Str(ReadString(s[1..]).value), ReadString(s[1..]).rest)
    ensures s[0] == '-' || IsDigit(s[0]) ==> ReadValue(s) == ReadNumber(s)
  {
    hide ReadItems, ReadMembers, ReadString, ReadNumber, ReadWord;
  }

  lemma WordRoundTrip(j: Json, rest: string)
    requires j.Null? || j.Bool?
    ensures ReadValue(Print(j) + rest) == Read(j, rest)
  {
    hide ReadItems, ReadMembers, ReadString, ReadNumber;
    var s := Print(j) + rest;
    match j
    case Null => assert s[..4] == "null" && s[4..] == rest;
    case Bool(b) =>
      if b { assert s[..4] == "true" && s[4..] == rest; }
      else { assert s[..5] == "false" && s[5..] == rest; }
  }

  lemma EmptyRoundTrip(j: Json, rest: string)
    requires j == Arr([]) || j == Obj([])
    ensures ReadValue(Print(j) + rest) == Read(j, rest)
  {
    hide ReadItems, ReadMembers, ReadString, ReadNumber, ReadWord;
    var s := Print(j) + rest;
    assert s == (if j.Arr? then "[]" else "{}") + rest;
    assert s[2..] == rest;
  }

  lemma {:induction false} ValueRoundTrip(j: Json, rest: string)
    requires Closes(rest)
    ensures Print(j) != "" && Print(j)[0] !in ",]}:"
    ensures ReadValue(Print(j) + rest) == Read(j, rest)
    decreases j, 0
  {
    hide ReadValue, ReadItems, ReadMembers, ReadString, ReadNumber, PrintItems, PrintMembers, Escape, NatText;
    var s := Print(j) + rest;
    ReadComposite(s);
    match j
    case Null => WordRoundTrip(j, rest);
    case Bool(b) => WordRoundTrip(j, rest);
    case Num(n) =>
      NumberRoundTrip(n, rest);
      assert s[0] == IntText(n)[0];
    case Str(t) =>
      StringRoundTrip(t, rest);
      assert s[1..] == Escape(t) + "\"" + rest;
    case Arr(items) =>
      if items == [] {
        EmptyRoundTrip(j, rest);
      } else {
        ItemsRoundTrip(items, rest);
        assert s[1..] == PrintItems(items) + "]" + rest;
      }
    case Obj(members) =>
      if members == [] {
        EmptyRoundTrip(j, rest);
      } else {
        MembersRoundTrip(members, rest);
        assert s[1..] == PrintMembers(members) + "}" + rest;
      }
  }

  lemma {:induction false} ItemsRoundTrip(items: seq<Json>, rest: string)
    requires items != []
    ensures PrintItems(items) != "" && PrintItems(items)[0] !in ",]}:"
    ensures ReadItems(PrintItems(items) + "]" + rest) == Read(items, rest)
    decreases items, 1
  {
    hide ReadValue, Print, ReadItems;
    if |items| == 1 {
      ValueRoundTrip(items[0], "]" + rest);
      assert PrintItems(items) == Print(items[0]) && items == [items[0]];
      hide PrintItems;
      LastItem(items[0], rest);
    } else {
      ValueRoundTrip(items[0], "," + (PrintItems(items[1..]) + "]" + rest));
      ItemsRoundTrip(items[1..], rest);
      assert PrintItems(items) == Print(items[0]) + "," + PrintItems(items[1..]);
      assert items == [items[0]] + items[1..];
      hide PrintItems;
      MoreItems(items[0], items[1..], rest);
    }
  }

  lemma LastItem(item: Json, rest: string)
    requires ReadValue(Print(item) + ("]" + rest)) == Read(item, "]" + rest)
    ensures ReadItems(Print(item) + "]" + rest) == Read([item], rest)
  {
    hide ReadValue, Print;
    assert Print(item) + "]" + rest == Print(item) + ("]" + rest);
    assert ("]" + rest)[1..] == rest;
  }

  lemma MoreItems(item: Json, items: seq<Json>, rest: string)
    requires var more := PrintItems(items) + "]" + rest;
             && ReadValue(Print(item) + ("," + more)) == Read(item, "," + more)
             && ReadItems(more) == Read(items, rest)
    ensures ReadItems(Print(item) + "," + PrintItems(items) + "]" + rest) == Read([item] + items, rest)
  {
    hide ReadValue, Print, PrintItems;
    var more := PrintItems(items) + "]" + rest;
    assert Print(item) + "," + PrintItems(items) + "]" + rest == Print(item) + ("," + more);
    assert ("," + more)[1..] == more;
  }

  lemma {:induction false} MembersRoundTrip(members: seq<Member>, rest: string)
    requires members != []
    ensures PrintMembers(members) != "" && PrintMembers(members)[0] == '"'
    ensures ReadMembers(PrintMembers(members) + "}" + rest) == Read(members, rest)
    decreases members, 1
  {
    hide ReadValue, Print, ReadMembers, PrintMembers, PrintMember;
    var m := members[0];
    PrintMembersSplit(members);
    if |members| == 1 {
      MemberRoundTrip(m, "}" + rest);
      assert PrintMembers(members) + "}" + rest == PrintMember(m) + ("}" + rest);
      assert ("}" + rest)[1..] == rest;
      assert members == [m];
    } else {
      var more := PrintMembers(members[1..]) + "}" + rest;
      MemberRoundTrip(m, "," + more);
      MembersRoundTrip(members[1..], rest);
      assert PrintMembers(members) + "}" + rest == PrintMember(m) + ("," + more);
      assert ("," + more)[1..] == more;
      assert members == [m] + members[1..];
    }
  }

  lemma PrintMembersSplit(members: seq<Member>)
    requires members != []
    ensures PrintMember(members[0]) != ""
    ensures PrintMembers(members) == PrintMember(members[0])
                                     + (if |members| == 1 then "" else "," + PrintMembers(members[1..]))
  {
    hide Print, Quote;
  }

  function PrintMember(m: Member): string { Quote(m.key) + ":" + Print(m.value) }

  /** One step of the member reader over a printed member. */
  lemma {:induction false} MemberRoundTrip(m: Member, tail: string)
    requires tail != "" && tail[0] in ",}"
    ensures PrintMember(m)[0] == '"'
    ensures tail[0] == '}' ==> ReadMembers(PrintMember(m) + tail) == Read([m], tail[1..])
    ensures tail[0] == ',' && ReadMembers(tail[1..]).Read? ==>
              ReadMembers(PrintMember(m) + tail)
                  == Read([m] + ReadMembers(tail[1..]).value, ReadMembers(tail[1..]).rest)
    decreases m, 1
  {
    hide ReadValue, Print, ReadString, Escape;
    var after := ":" + Print(m.value) + tail;
    ValueRoundTrip(m.value, tail);
    StringRoundTrip(m.key, after);
    var s := PrintMember(m) + tail;
    assert s[1..] == Escape(m.key) + "\"" + after;
    assert after[1..] == Print(m.value) + tail;
  }

  /** Reading back what was printed gives the same value. */
  lemma LoadsPrint(j: Json)
    ensures Loads(Print(j)) == Some(j)
  {
    ValueRoundTrip(j, "");
    assert Print(j) + "" == Print(j);
  }

  // ------------------------------------------------------------- key sorting

  predicate DistinctKeys(members: seq<Member>) {
    forall i, j :: 0 <= i < j < |members| ==> members[i].key != members[j].key
  }

  predicate Ascending(members: seq<Member>) {
    forall i, j :: 0 <= i < j < |members| ==> Less(members[i].key, members[j].key)
  }

  lemma {:induction false} InsertLaw(m: Member, members: seq<Member>)
    requires Ascending(members)
    requires forall x :: x in members ==> x.key != m.key
    ensures Ascending(Insert(m, members))
    ensures forall x :: x in Insert(m, members) <==> x == m || x in members
  {
    if members != [] {
      var rest := members[1..];
      assert members == [members[0]] + rest;
      if Less(members[0].key, m.key) {
        assert forall x :: x in rest ==> x in members;
        InsertLaw(m, rest);
        var r := Insert(m, rest);
        forall i | 0 <= i < |r| ensures Less(members[0].key, r[i].key) {
          assert r[i] in r;
          if r[i] != m {
            var k :| 0 <= k < |rest| && rest[k] == r[i];
            assert members[k + 1] == r[i];
          }
        }
      } else {
        LessTotal(m.key, members[0].key);
        forall i | 0 <= i < |members| ensures Less(m.key, members[i].key) {
          if i > 0 { LessTransitive(m.key, members[0].key, members[i].key); }
        }
      }
    }
  }

  lemma {:induction false} SortLaw(members: seq<Member>)
    requires DistinctKeys(members)
    ensures Ascending(SortByKey(members))
    ensures forall x :: x in SortByKey(members) <==> x in members
  {
    if members != [] {
      SortLaw(members[1..]);
      assert members == [members[0]] + members[1..];
      InsertLaw(members[0], SortByKey(members[1..]));
    }
  }

  /** A list in ascending key order is determined by its set of members. */
  lemma {:induction false} AscendingUnique(a: seq<Member>, b: seq<Member>)
    requires Ascending(a) && Ascending(b)
    requires forall x :: x in a <==> x in b
    ensures a == b
  {
    if b != [] { assert b[0] in b; }
    if a != [] {
      assert a[0] in b;
      var j :| 0 <= j < |b| && b[j] == a[0];
      assert b[0] in a;
      var i :| 0 <= i < |a| && a[i] == b[0];
      if i > 0 && j > 0 {
        LessTransitive(a[0].key, a[i].key, b[j].key);
        LessIrreflexive(a[0].key);
        assert false;
      }
      assert a[0] == b[0];
      TailMembers(a);
      TailMembers(b);
      AscendingUnique(a[1..], b[1..]);
    }
  }

  lemma TailMembers(a: seq<Member>)
    requires Ascending(a) && a != []
    ensures a == [a[0]] + a[1..]
    ensures forall x :: x in a[1..] <==> x in a && x != a[0]
  {
    forall x | x in a[1..] ensures x != a[0] {
      var k :| 0 <= k < |a[1..]| && a[1..][k] == x;
      assert a[k + 1] == x;
      LessIrreflexive(x.key);
    }
    assert a == [a[0]] + a[1..];
  }

  // -------------------------------------------------------- what text decides

  /** Every object has distinct names, as every Python dict has. */
  predicate WellKeyed(j: Json) {
    match j
    case Arr(items) => forall i :: 0 <= i < |items| ==> WellKeyed(items[i])
    case Obj(members) =>
      && DistinctKeys(members)
      && forall i :: 0 <= i < |members| ==> WellKeyed(members[i].value)
    case _ => true
  }

  /** Equality of JSON values where objects are unordered, as for Python dicts. */
  predicate Same(j: Json, k: Json) {
    match (j, k)
    case (Arr(a), Arr(b)) => |a| == |b| && forall i :: 0 <= i < |a| ==> Same(a[i], b[i])
    case (Obj(a), Obj(b)) =>
      && (forall i :: 0 <= i < |a| ==> FoundIn(a[i], b))
      && (forall n :: 0 <= n < |b| ==> Finds(a, b[n]))
    case _ => j == k
  }

  predicate FoundIn(m: Member, b: seq<Member>) {
    exists n :: 0 <= n < |b| && m.key == b[n].key && Same(m.value, b[n].value)
  }

  predicate Finds(a: seq<Member>, m: Member) {
    exists i :: 0 <= i < |a| && a[i].key == m.key && Same(a[i].value, m.value)
  }

  lemma {:induction false} SortedSame(j: Json, k: Json)
    requires WellKeyed(j) && WellKeyed(k)
    ensures Sorted(j) == Sorted(k) <==> Same(j, k)
    decreases j
  {
    match (j, k) {
      case (Arr(a), Arr(b)) =>
        forall i | 0 <= i < |a| && i < |b|
          ensures Sorted(a[i]) == Sorted(b[i]) <==> Same(a[i], b[i])
        {
          SortedSame(a[i], b[i]);
        }
        ArraysAlike(a, b);
      case (Obj(a), Obj(b)) =>
        forall i, n | 0 <= i < |a| && 0 <= n < |b|
          ensures Sorted(a[i].value) == Sorted(b[n].value) <==> Same(a[i].value, b[n].value)
        {
          SortedSame(a[i].value, b[n].value);
        }
        ObjectsAlike(a, b);
      case _ =>
    }
  }

  lemma ArraysAlike(a: seq<Json>, b: seq<Json>)
    requires forall i :: 0 <= i < |a| && i < |b| ==> (Sorted(a[i]) == Sorted(b[i]) <==> Same(a[i], b[i]))
    ensures Sorted(Arr(a)) == Sorted(Arr(b)) <==> Same(Arr(a), Arr(b))
  {
    hide SortedItems;
    if SortedItems(a) == SortedItems(b) {
      assert |a| == |b|;
      forall i | 0 <= i < |a| ensures Same(a[i], b[i]) {
        assert SortedItems(a)[i] == SortedItems(b)[i];
      }
    }
  }

  predicate ValuesAgree(a: seq<Member>, b: seq<Member>) {
    forall i, n :: 0 <= i < |a| && 0 <= n < |b| ==>
      (Sorted(a[i].value) == Sorted(b[n].value) <==> Same(a[i].value, b[n].value))
  }

  lemma ObjectsAlike(a: seq<Member>, b: seq<Member>)
    requires DistinctKeys(a) && DistinctKeys(b)
    requires ValuesAgree(a, b)
    ensures Sorted(Obj(a)) == Sorted(Obj(b)) <==> Same(Obj(a), Obj(b))
  {
    hide Sorted, SortedValues, SortByKey, FoundIn, Finds, ValuesAgree;
    SortedObject(a);
    SortedObject(b);
    var x, y := SortedValues(a), SortedValues(b);
    SortLaw(x);
    SortLaw(y);
    if SortByKey(x) == SortByKey(y) {
      forall i | 0 <= i < |a| ensures FoundIn(a[i], b) {
        assert x[i] in y;
        MemberFound(a, b, i);
      }
      forall n | 0 <= n < |b| ensures Finds(a, b[n]) {
        assert y[n] in x;
        MemberFinds(a, b, n);
      }
      assert Same(Obj(a), Obj(b));
    }
    if Same(Obj(a), Obj(b)) {
      forall m | m in x ensures m in y {
        var i :| 0 <= i < |x| && x[i] == m;
        MemberFound(a, b, i);
      }
      forall m | m in y ensures m in x {
        var n :| 0 <= n < |y| && y[n] == m;
        MemberFinds(a, b, n);
      }
      AscendingUnique(SortByKey(x), SortByKey(y));
    }
  }

  lemma MemberFound(a: seq<Member>, b: seq<Member>, i: nat)
    requires i < |a| && ValuesAgree(a, b)
    ensures FoundIn(a[i], b) <==> SortedValues(a)[i] in SortedValues(b)
  {
    hide Sorted, SortedValues, Same;
    var y := SortedValues(b);
    if FoundIn(a[i], b) {
      var n :| 0 <= n < |b| && a[i].key == b[n].key && Same(a[i].value, b[n].value);
      assert y[n] == SortedValues(a)[i];
    }
    if SortedValues(a)[i] in y {
      var n :| 0 <= n < |y| && y[n] == SortedValues(a)[i];
      assert Same(a[i].value, b[n].value);
    }
  }

  lemma MemberFinds(a: seq<Member>, b: seq<Member>, n: nat)
    requires n < |b| && ValuesAgree(a, b)
    ensures Finds(a, b[n]) <==> SortedValues(b)[n] in SortedValues(a)
  {
    hide Sorted, SortedValues, Same;
    var x := SortedValues(a);
    if Finds(a, b[n]) {
      var i :| 0 <= i < |a| && a[i].key == b[n].key && Same(a[i].value, b[n].value);
      assert x[i] == SortedValues(b)[n];
    }
    if SortedValues(b)[n] in x {
      var i :| 0 <= i < |x| && x[i] == SortedValues(b)[n];
      assert Same(a[i].value, b[n].value);
    }
  }

  lemma SortedObject(a: seq<Member>)
    requires DistinctKeys(a)
    ensures Sorted(Obj(a)) == Obj(SortByKey(SortedValues(a)))
    ensures DistinctKeys(SortedValues(a))
  {
  }

  // ------------------------------------------------------------ main results

  /** `json.loads(canonical_json(p))` is the normalized value. */
  lemma LoadsCanonical(p: Py)
    ensures Loads(CanonicalText(p)) == Some(Normalize(p))
  {
    LoadsPrint(Normalize(p));
  }

  /** Two Python values print alike exactly when, leaf texts filled in, they are equal
      up to the order of dict keys. */
  lemma TextDecidesValue(p: Py, q: Py)
    requires WellKeyed(Render(p)) && WellKeyed(Render(q))
    ensures CanonicalText(p) == CanonicalText(q) <==> Same(Render(p), Render(q))
  {
    LoadsCanonical(p);
    LoadsCanonical(q);
    SortedSame(Render(p), Render(q));
  }

  /** A JSON value seen as the Python value that `json.loads` returns. */
  function AsPy(j: Json): (p: Py)
    ensures Render(p) == j
  {
    match j
    case Null => PyNone
    case Bool(b) => PyBool(b)
    case Num(n) => PyInt(n)
    case Str(s) => PyStr(s)
    case Arr(items) =>
      var r := AsPyItems(items);
      assert RenderItems(r) == items;
      PyList(r)
    case Obj(members) =>
      var r := AsPyMembers(members);
      assert RenderMembers(r) == members;
      PyDict(r)
  }

  function AsPyItems(items: seq<Json>): (r: seq<Py>)
    ensures |r| == |items| && forall i :: 0 <= i < |items| ==> Render(r[i]) == items[i]
  {
    if items == [] then [] else [AsPy(items[0])] + AsPyItems(items[1..])
  }

  function AsPyMembers(members: seq<Member>): (r: seq<PyItem>)
    ensures |r| == |members|
    ensures forall i :: 0 <= i < |members| ==> r[i].key == members[i].key && Render(r[i].value) == members[i].value
  {
    if members == [] then []
    else [PyItem(members[0].key, AsPy(members[0].value))] + AsPyMembers(members[1..])
  }

  lemma {:induction false} SortedValuesStable(members: seq<Member>)
    requires forall i :: 0 <= i < |members| ==> Sorted(members[i].value) == members[i].value
    ensures SortedValues(members) == members
  {
  }

  lemma {:induction false} SortStable(members: seq<Member>)
    requires Ascending(members)
    ensures SortByKey(members) == members
  {
    if members != [] {
      SortStable(members[1..]);
      assert members == [members[0]] + members[1..];
      if |members| > 1 {
        LessIrreflexive(members[0].key);
        if Less(members[1].key, members[0].key) {
          LessTransitive(members[0].key, members[1].key, members[0].key);
        }
      }
    }
  }

  /** Sorting is idempotent and keeps names distinct. */
  lemma {:induction false} SortedTwice(j: Json)
    requires WellKeyed(j)
    ensures Sorted(Sorted(j)) == Sorted(j)
    decreases j
  {
    match j {
      case Arr(items) =>
        forall i | 0 <= i < |items| ensures Sorted(Sorted(items[i])) == Sorted(items[i]) {
          SortedTwice(items[i]);
        }
        assert SortedItems(SortedItems(items)) == SortedItems(items);
      case Obj(members) =>
        forall i | 0 <= i < |members|
          ensures Sorted(Sorted(members[i].value)) == Sorted(members[i].value)
        {
          SortedTwice(members[i].value);
        }
        SortedObjectTwice(members);
      case _ =>
    }
  }

  lemma SortedObjectTwice(members: seq<Member>)
    requires DistinctKeys(members)
    requires forall i :: 0 <= i < |members| ==> Sorted(Sorted(members[i].value)) == Sorted(members[i].value)
    ensures Sorted(Sorted(Obj(members))) == Sorted(Obj(members))
  {
    hide SortedValues, SortByKey;
    SortedObject(members);
    var x := SortedValues(members);
    var y := SortByKey(x);
    SortLaw(x);
    forall i | 0 <= i < |y| ensures Sorted(y[i].value) == y[i].value {
      assert y[i] in x;
    }
    SortedValuesStable(y);
    SortStable(y);
  }

  /** The stored payload prints to the very text it was normalized from, so hashing it
      again gives the same hash. */
  lemma StoredPayloadRehashes(p: Py)
    requires WellKeyed(Render(p))
    ensures var stored := Loads(CanonicalText(p));
            stored.Some? && CanonicalText(AsPy(stored.value)) == CanonicalText(p)
  {
    LoadsCanonical(p);
    SortedTwice(Render(p));
  }
}
