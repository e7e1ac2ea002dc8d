/** The item block of parser.py's `parse_receipt_text`: the block's lines
    filtered, each line split into a name and three number columns by the two
    row patterns, and the cursor that steps through the lines, joining a
    wrapped name with the line after it. */
module ItemRows {
  import opened Wrappers
  import opened Text
  import opened Decimal
  import opened ItemNames

  /** The prefix of the VAT lines inside the item block. */
  const VatLine: string := "*ƏDV"

  /** Stripping cannot bring in a character the string lacks. */
  lemma {:induction false} StripKeepsOutChar(s: string, c: char)
    requires c !in s
    ensures c !in Strip(s)
  {
    var l := LStrip(s);
    LStripIsSuffix(s);
    RStripIsPrefix(l);
    assert Strip(s) == s[|s| - |l|..][..|RStrip(l)|];
  }

  /** One line of the item block, kept: stripped, not empty, not a VAT line. */
  predicate KeptLine(line: string) {
    line != [] && !StartsWith(line, VatLine)
  }

  /** `[line.strip() for line in parts if line.strip() and not
      line.strip().startswith('*ƏDV')]` */
  function KeptLines(parts: seq<string>): (lines: seq<string>)
    ensures |lines| <= |parts|
    ensures forall k :: 0 <= k < |lines| ==> KeptLine(lines[k]) && Trimmed(lines[k])
  {
    if parts == [] then []
    else
      var line := Strip(parts[0]);
      (if KeptLine(line) then [line] else []) + KeptLines(parts[1..])
  }

  /** A line is kept exactly when it is the stripped form of one of the
      block's lines and neither empty nor a VAT line. */
  lemma {:induction false} KeptLinesMembers(parts: seq<string>, x: string)
    ensures x in KeptLines(parts) <==> KeptLine(x) && exists p :: p in parts && x == Strip(p)
  {
    if parts != [] {
      KeptLinesMembers(parts[1..], x);
      if x in KeptLines(parts) && x != Strip(parts[0]) {
        var p :| p in parts[1..] && x == Strip(p);
        assert p in parts;
      }
      if KeptLine(x) && x == Strip(parts[0]) {
        assert x in KeptLines(parts);
      }
      if KeptLine(x) && (exists p :: p in parts && x == Strip(p)) && x != Strip(parts[0]) {
        var p :| p in parts && x == Strip(p);
        assert p in parts[1..];
      }
    }
  }

  /** Kept lines of parts free of a character are free of it too. */
  lemma {:induction false} KeptLinesWithout(parts: seq<string>, c: char)
    requires forall k :: 0 <= k < |parts| ==> c !in parts[k]
    ensures forall k :: 0 <= k < |KeptLines(parts)| ==> c !in KeptLines(parts)[k]
  {
    if parts != [] {
      StripKeepsOutChar(parts[0], c);
      KeptLinesWithout(parts[1..], c);
    }
  }

  /** The lines of the item block, stripped, without empty and VAT lines; none
      of them holds a line break. */
  function ItemLines(block: string): (lines: seq<string>)
    ensures forall k :: 0 <= k < |lines| ==> KeptLine(lines[k]) && Trimmed(lines[k]) && '\n' !in lines[k]
  {
    var parts := Split(block, '\n');
    KeptLinesWithout(parts, '\n');
    KeptLines(parts)
  }

  /** The class `[\d\.]` of the number columns. */
  predicate IsNumChar(c: char) {
    IsDigit(c) || c == '.'
  }

  /** A number column and the text after it. */
  datatype Cut = Cut(num: string, rest: string)

  /** `\s+([\d\.]+)` at the start of `u`. Whitespace and number characters are
      disjoint classes, so the greedy runs are the only way to match. */
  function SpacedNumber(u: string): (r: Option<Cut>)
    ensures r.Some? ==> r.value.num != [] && |r.value.rest| < |u|
  {
    var a := LeadingRun(u, IsSpace);
    var d := LeadingRun(u[a..], IsNumChar);
    if a == 0 || d == 0 then None else Some(Cut(u[a..][..d], u[a..][d..]))
  }

  /** The three number columns of a row: quantity, unit price, line total. */
  datatype Numbers = Numbers(quantity: string, price: string, total: string)

  /** `\s+([\d\.]+)\s+([\d\.]+)\s+([\d\.]+)$` at the start of `u`. The lines hold
      no line break, so `$` is the end of the text. */
  function Triplet(u: string): Option<Numbers>
  {
    match SpacedNumber(u)
    case None => None
    case Some(c1) =>
      match SpacedNumber(c1.rest)
      case None => None
      case Some(c2) =>
        match SpacedNumber(c2.rest)
        case None => None
        case Some(c3) => if c3.rest == [] then Some(Numbers(c1.num, c2.num, c3.num)) else None
  }

  predicate NotClosing(c: char) {
    c != ')'
  }

  /** `\s*\(([^)]+)\)` and then the triplet, at the start of `u`: the unit
      runs up to the first `)`. */
  function UnitTriplet(u: string): Option<Numbers>
  {
    var v := u[LeadingRun(u, IsSpace)..];
    if v == [] || v[0] != '(' then None
    else
      var b := LeadingRun(v[1..], NotClosing);
      if b == 0 || b == |v| - 1 then None
      else Triplet(v[1..][b + 1..])
  }

  /** What a row pattern captures: the name and the three number columns. */
  datatype Row = Row(name: string, numbers: Numbers)

  /** The lazy `(.+?)` in front of the rest of a pattern: the shortest name of
      at least `k` characters, with no line break, after which the rest
      matches. */
  function LazyRow(s: string, k: nat, rest: string -> Option<Numbers>): Option<Row>
    requires 1 <= k
    decreases |s| - k
  {
    if k > |s| || s[k - 1] == '\n' then None
    else
      match rest(s[k..])
      case Some(n) => Some(Row(s[..k], n))
      case None => LazyRow(s, k + 1, rest)
  }

  /** `re.match(r'(.+?)\s*\(([^)]+)\)\s+([\d\.]+)\s+([\d\.]+)\s+([\d\.]+)$', s)` */
  function MatchUnit(s: string): Option<Row> {
    LazyRow(s, 1, UnitTriplet)
  }

  /** `re.match(r'(.+?)\s+([\d\.]+)\s+([\d\.]+)\s+([\d\.]+)$', s)` */
  function MatchBare(s: string): Option<Row> {
    LazyRow(s, 1, Triplet)
  }

  /** A lazy row is a prefix of the line of at least `k` characters after
      which the rest matches, and no shorter name from `k` on would do. */
  lemma {:induction false} LazyRowSound(s: string, k: nat, rest: string -> Option<Numbers>)
    requires 1 <= k
    ensures LazyRow(s, k, rest).Some? ==>
      var r := LazyRow(s, k, rest).value;
      k <= |r.name| <= |s| && r.name == s[..|r.name|] && '\n' !in s[k - 1..|r.name|]
      && rest(s[|r.name|..]) == Some(r.numbers)
      && forall j :: k <= j < |r.name| ==> rest(s[j..]).None?
    decreases |s| - k
  {
    if k <= |s| && s[k - 1] != '\n' && rest(s[k..]).None? {
      LazyRowSound(s, k + 1, rest);
      if LazyRow(s, k, rest).Some? {
        var n := |LazyRow(s, k, rest).value.name|;
        assert s[k - 1..n] == [s[k - 1]] + s[k..n];
      }
    }
  }

  /** Whenever some name of at least `k` characters without a line break
      leaves a matching rest, the lazy row is found. */
  lemma {:induction false} LazyRowComplete(s: string, k: nat, j: nat, rest: string -> Option<Numbers>)
    requires 1 <= k <= j <= |s| && '\n' !in s[k - 1..j] && rest(s[j..]).Some?
    ensures LazyRow(s, k, rest).Some?
    decreases j - k
  {
    assert s[k - 1] == s[k - 1..j][0];
    if k < j && rest(s[k..]).None? {
      assert s[k..j] == s[k - 1..j][1..];
      LazyRowComplete(s, k + 1, j, rest);
    }
  }

  /** A parsed item: the cleaned name and the three numbers. */
  datatype Item = Item(name: string, quantity: real, unitPrice: real, lineTotal: real)

  /** `item_name = group(1).strip()`, the three `float(...)` conversions and
      `clean_item_name`; None stands for the ValueError a `float` raises. */
  function ReadRow(row: Row): (r: Option<Item>)
    ensures r.Some? ==> Normal(r.value.name) && |r.value.name| <= |row.name|
  {
    var q := ParseDecimal(row.numbers.quantity);
    var p := ParseDecimal(row.numbers.price);
    var t := ParseDecimal(row.numbers.total);
    if q.None? || p.None? || t.None? then None
    else Some(Item(CleanItemName(Strip(row.name)), q.value, p.value, t.value))
  }

  /** What trying one pattern at the cursor gives: no match, a match whose
      `float` raised, or a read item. */
  datatype Attempt =
    | NoRow
    | Misread
    | Read(item: Item)

  function Try(m: Option<Row>): Attempt {
    match m
    case None => NoRow
    case Some(row) =>
      match ReadRow(row)
      case None => Misread
      case Some(it) => Read(it)
  }

  /** The rows the patterns match at a line: the unit pattern first, then the
      bare one. */
  function MatchLine(line: string): Option<Row> {
    match MatchUnit(line)
    case Some(r) => Some(r)
    case None => MatchBare(line)
  }

  /** The two attempts the loop may make at line `i`: the line's own row, and
      the bare pattern on the line joined with the next one. */
  datatype LineView = LineView(own: Attempt, joined: Attempt)

  function View(lines: seq<string>, i: nat): LineView
    requires i < |lines|
  {
    var line := Strip(lines[i]);
    LineView(Try(MatchLine(line)),
             if i + 1 < |lines| then Try(MatchBare(line + " " + Strip(lines[i + 1]))) else NoRow)
  }

  /** The views of the lines, line by line. */
  function Views(lines: seq<string>): (vs: seq<LineView>)
    ensures |vs| == |lines|
  {
    seq(|lines|, k requires 0 <= k < |lines| => View(lines, k))
  }

  /** The view at line `i` is what the two patterns give there. */
  lemma {:induction false} ViewsAt(lines: seq<string>, i: nat)
    requires i < |lines|
    ensures Views(lines)[i] == View(lines, i)
  {
  }

  /** What a read item adds to the list: itself, unless its name is empty. */
  function Emitted(it: Item): seq<Item> {
    if it.name != [] then [it] else []
  }

  /** The `while` loop from cursor `i` on: a line's own row, or else its
      joined row, which consumes the next line too; a failed `float` ends
      the loop. */
  function Cursor(vs: seq<LineView>, i: nat): seq<Item>
    decreases |vs| - i
  {
    if i >= |vs| then []
    else
      match vs[i].own
      case Misread => []
      case Read(it) => Emitted(it) + Cursor(vs, i + 1)
      case NoRow =>
        if i + 1 < |vs| then
          match vs[i].joined
          case Misread => []
          case Read(it) => Emitted(it) + Cursor(vs, i + 2)
          case NoRow => Cursor(vs, i + 1)
        else Cursor(vs, i + 1)
  }

  /** The items `parse_receipt_text` collects from the item lines, in line
      order. */
  function ItemsOf(lines: seq<string>): seq<Item> {
    Cursor(Views(lines), 0)
  }

  /** Every read item of the attempts has a whitespace-normal name. */
  predicate NormalNames(vs: seq<LineView>) {
    forall k :: 0 <= k < |vs| ==>
      (vs[k].own.Read? ==> Normal(vs[k].own.item.name))
      && (vs[k].joined.Read? ==> Normal(vs[k].joined.item.name))
  }

  lemma {:induction false} ViewsNormal(lines: seq<string>)
    ensures NormalNames(Views(lines))
  {
    forall k | 0 <= k < |lines|
      ensures (Views(lines)[k].own.Read? ==> Normal(Views(lines)[k].own.item.name))
        && (Views(lines)[k].joined.Read? ==> Normal(Views(lines)[k].joined.item.name))
    {
      ViewsAt(lines, k);
    }
  }

  /** No line gives more than one item, and every item has a non-empty name,
      normal when the attempts' names are. */
  lemma {:induction false} CursorShape(vs: seq<LineView>, i: nat)
    requires i <= |vs|
    ensures |Cursor(vs, i)| <= |vs| - i
    ensures forall k :: 0 <= k < |Cursor(vs, i)| ==> Cursor(vs, i)[k].name != []
    ensures NormalNames(vs) ==> forall k :: 0 <= k < |Cursor(vs, i)| ==> Normal(Cursor(vs, i)[k].name)
    decreases |vs| - i
  {
    if i < |vs| {
      var v := vs[i];
      if v.own.Read? {
        CursorShape(vs, i + 1);
        CursorOwn(vs, i, v.own.item);
        EmittedThen(v.own.item, Cursor(vs, i + 1));
      } else if v.own.NoRow? && i + 1 < |vs| && v.joined.Read? {
        CursorShape(vs, i + 2);
        CursorJoined(vs, i, v.joined.item);
        EmittedThen(v.joined.item, Cursor(vs, i + 2));
      } else if v.own.NoRow? && (i + 1 < |vs| ==> v.joined.NoRow?) {
        CursorShape(vs, i + 1);
        CursorSkip(vs, i);
      } else {
        CursorMisread(vs, i);
      }
    }
  }

  /** An emitted item in front of a list keeps what every item of the list has. */
  lemma {:induction false} EmittedThen(it: Item, rest: seq<Item>)
    ensures |Emitted(it) + rest| <= 1 + |rest|
    ensures (forall k :: 0 <= k < |rest| ==> rest[k].name != []) ==>
      forall k :: 0 <= k < |Emitted(it) + rest| ==> (Emitted(it) + rest)[k].name != []
    ensures Normal(it.name) && (forall k :: 0 <= k < |rest| ==> Normal(rest[k].name)) ==>
      forall k :: 0 <= k < |Emitted(it) + rest| ==> Normal((Emitted(it) + rest)[k].name)
  {
  }

  /** The items of the lines: at most one per line, each with a non-empty,
      whitespace-normal name. */
  lemma {:induction false} ItemsOfShape(lines: seq<string>)
    ensures |ItemsOf(lines)| <= |lines|
    ensures forall k :: 0 <= k < |ItemsOf(lines)| ==>
      ItemsOf(lines)[k].name != [] && Normal(ItemsOf(lines)[k].name)
  {
    ViewsNormal(lines);
    CursorShape(Views(lines), 0);
  }

  /** The cursor at a line whose own row was read. */
  lemma {:induction false} CursorOwn(vs: seq<LineView>, i: nat, it: Item)
    requires i < |vs| && vs[i].own == Read(it)
    ensures Cursor(vs, i) == Emitted(it) + Cursor(vs, i + 1)
  {
  }

  /** The cursor at a line whose row only matched joined with the next one. */
  lemma {:induction false} CursorJoined(vs: seq<LineView>, i: nat, it: Item)
    requires i + 1 < |vs| && vs[i].own.NoRow? && vs[i].joined == Read(it)
    ensures Cursor(vs, i) == Emitted(it) + Cursor(vs, i + 2)
  {
  }

  /** The cursor moves past a line that matched neither way. */
  lemma {:induction false} CursorSkip(vs: seq<LineView>, i: nat)
    requires i < |vs| && vs[i].own.NoRow? && (i + 1 < |vs| ==> vs[i].joined.NoRow?)
    ensures Cursor(vs, i) == Cursor(vs, i + 1)
  {
  }

  /** A row whose numbers do not parse stops the cursor. */
  lemma {:induction false} CursorMisread(vs: seq<LineView>, i: nat)
    requires i < |vs|
    requires vs[i].own.Misread? || (vs[i].own.NoRow? && i + 1 < |vs| && vs[i].joined.Misread?)
    ensures Cursor(vs, i) == []
  {
  }

  /** The cursor with the items collected so far in front. */
  function CursorAfter(vs: seq<LineView>, i: nat, acc: seq<Item>): seq<Item>
    decreases |vs| - i
  {
    if i >= |vs| then acc
    else
      match vs[i].own
      case Misread => acc
      case Read(it) => CursorAfter(vs, i + 1, acc + Emitted(it))
      case NoRow =>
        if i + 1 < |vs| then
          match vs[i].joined
          case Misread => acc
          case Read(it) => CursorAfter(vs, i + 2, acc + Emitted(it))
          case NoRow => CursorAfter(vs, i + 1, acc)
        else CursorAfter(vs, i + 1, acc)
  }

  /** Collecting after some items is collecting and putting them in front. */
  lemma {:induction false} CursorAfterIs(vs: seq<LineView>, i: nat, acc: seq<Item>)
    ensures CursorAfter(vs, i, acc) == acc + Cursor(vs, i)
    decreases |vs| - i
  {
    if i >= |vs| {
      assert acc + [] == acc;
    } else {
      match vs[i].own
      case Misread =>
        assert acc + [] == acc;
      case Read(it) =>
        CursorAfterIs(vs, i + 1, acc + Emitted(it));
        CursorOwn(vs, i, it);
        ConcatAssoc(acc, Emitted(it), Cursor(vs, i + 1));
      case NoRow =>
        if i + 1 < |vs| {
          match vs[i].joined
          case Misread =>
            assert acc + [] == acc;
          case Read(it) =>
            CursorAfterIs(vs, i + 2, acc + Emitted(it));
            CursorJoined(vs, i, it);
            ConcatAssoc(acc, Emitted(it), Cursor(vs, i + 2));
          case NoRow =>
            CursorAfterIs(vs, i + 1, acc);
        } else {
          CursorAfterIs(vs, i + 1, acc);
        }
    }
  }

  lemma ConcatAssoc(a: seq<Item>, b: seq<Item>, c: seq<Item>)
    ensures (a + b) + c == a + (b + c)
  {
  }

  /** A line whose own row is read adds its item and moves on one line. */
  lemma {:induction false} AdvanceOwn(lines: seq<string>, vs: seq<LineView>, i: nat, acc: seq<Item>, row: Row, it: Item)
    requires i < |lines| && |vs| == |lines| && vs[i] == View(lines, i)
    requires MatchLine(Strip(lines[i])) == Some(row) && ReadRow(row) == Some(it)
    ensures CursorAfter(vs, i, acc) == CursorAfter(vs, i + 1, acc + Emitted(it))
  {
  }

  /** A line read together with the next one adds its item and moves on two
      lines. */
  lemma {:induction false} AdvanceJoined(lines: seq<string>, vs: seq<LineView>, i: nat, acc: seq<Item>, row: Row, it: Item)
    requires i + 1 < |lines| && |vs| == |lines| && vs[i] == View(lines, i)
    requires MatchLine(Strip(lines[i])).None?
    requires MatchBare(Strip(lines[i]) + " " + Strip(lines[i + 1])) == Some(row) && ReadRow(row) == Some(it)
    ensures CursorAfter(vs, i, acc) == CursorAfter(vs, i + 2, acc + Emitted(it))
  {
    assert vs[i].own == Try(MatchLine(Strip(lines[i]))) == NoRow;
    assert vs[i].joined == Try(MatchBare(Strip(lines[i]) + " " + Strip(lines[i + 1]))) == Read(it);
  }

  /** A line that matches neither way is passed over. */
  lemma {:induction false} AdvanceSkip(lines: seq<string>, vs: seq<LineView>, i: nat, acc: seq<Item>)
    requires i < |lines| && |vs| == |lines| && vs[i] == View(lines, i)
    requires MatchLine(Strip(lines[i])).None?
    requires i + 1 < |lines| ==> MatchBare(Strip(lines[i]) + " " + Strip(lines[i + 1])).None?
    ensures CursorAfter(vs, i, acc) == CursorAfter(vs, i + 1, acc)
  {
  }

  /** A matched row whose numbers do not parse ends the collection. */
  lemma {:induction false} AdvanceMisread(lines: seq<string>, vs: seq<LineView>, i: nat, acc: seq<Item>, row: Row)
    requires i < |lines| && |vs| == |lines| && vs[i] == View(lines, i)
    requires ReadRow(row).None?
    requires MatchLine(Strip(lines[i])) == Some(row) ||
      (MatchLine(Strip(lines[i])).None? && i + 1 < |lines| &&
       MatchBare(Strip(lines[i]) + " " + Strip(lines[i + 1])) == Some(row))
    ensures CursorAfter(vs, i, acc) == acc
  {
  }

  /** `vs` holds the views of `lines`, line by line. */
  predicate ViewsOf(lines: seq<string>, vs: seq<LineView>) {
    |vs| == |lines| && forall k {:trigger View(lines, k)} :: 0 <= k < |lines| ==> vs[k] == View(lines, k)
  }

  lemma {:induction false} ViewsOfViews(lines: seq<string>)
    ensures ViewsOf(lines, Views(lines))
  {
    forall k | 0 <= k < |lines|
      ensures Views(lines)[k] == View(lines, k)
    {
      ViewsAt(lines, k);
    }
  }

  /** `parse_receipt_text`'s items: those the cursor collects over the item
      lines. */
  method ParseItems(lines: seq<string>) returns (items: seq<Item>)
    ensures items == ItemsOf(lines)
  {
    ViewsOfViews(lines);
    items := CollectItems(lines, Views(lines));
  }

  /** What one turn of the item loop does to the cursor. */
  datatype Turn = Stop | Advance(emitted: seq<Item>, next: nat)

  /** One turn of the item loop at line `i`: the line's own row, else its
      row joined with the next line; a `float` failure stops the loop. */
  method Step(lines: seq<string>, ghost vs: seq<LineView>, i: nat, ghost acc: seq<Item>) returns (t: Turn)
    requires i < |lines| && |vs| == |lines| && vs[i] == View(lines, i)
    ensures t.Stop? ==> CursorAfter(vs, i, acc) == acc
    ensures t.Advance? ==> i < t.next <= |lines| && CursorAfter(vs, i, acc) == CursorAfter(vs, t.next, acc + t.emitted)
  {
    var line := Strip(lines[i]);
    var m := MatchLine(line);
    if m.Some? {
      var it := ReadRow(m.value);
      if it.None? {
        AdvanceMisread(lines, vs, i, acc, m.value);
        return Stop;
      }
      AdvanceOwn(lines, vs, i, acc, m.value, it.value);
      return Advance(Emitted(it.value), i + 1);
    }
    if i + 1 < |lines| {
      var joined := MatchBare(line + " " + Strip(lines[i + 1]));
      if joined.Some? {
        var it := ReadRow(joined.value);
        if it.None? {
          AdvanceMisread(lines, vs, i, acc, joined.value);
          return Stop;
        }
        AdvanceJoined(lines, vs, i, acc, joined.value, it.value);
        return Advance(Emitted(it.value), i + 2);
      }
    }
    AdvanceSkip(lines, vs, i, acc);
    assert acc + [] == acc;
    return Advance([], i + 1);
  }

  /** The item loop of `parse_receipt_text`: a cursor over the lines,
      advanced by one, or by two when a wrapped name was joined with the next
      line; a `float` failure leaves the loop with the items found so far. */
  method CollectItems(lines: seq<string>, ghost vs: seq<LineView>) returns (items: seq<Item>)
    requires ViewsOf(lines, vs)
    ensures items == Cursor(vs, 0)
  {
    CursorAfterIs(vs, 0, []);
    assert [] + Cursor(vs, 0) == Cursor(vs, 0);
    items := [];
    var i := 0;
    while i < |lines|
      invariant i <= |lines|
      invariant CursorAfter(vs, i, items) == Cursor(vs, 0)
      decreases |lines| - i
    {
      assert vs[i] == View(lines, i);
      var t := Step(lines, vs, i, items);
      if t.Stop? {
        return;
      }
      items := items + t.emitted;
      i := t.next;
    }
  }
}
