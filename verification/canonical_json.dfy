// Canonical printing of JSON values, on which idempotency and binding comparisons rest.
//
// A string is a sequence of Unicode scalar values, a number is the text JavaScript prints for it, and `rank` is the
// order the host's locale gives to keys: any total preorder, so two different keys may tie.
module CanonicalJson {
  type Rank = string -> real

  datatype Json = Undefined | Null | Bool(b: bool) | Number(text: string) | Str(s: string) | Arr(items: Items) | Obj(members: Members)

  datatype Items = NoItem | Item(head: Json, tail: Items)

  datatype Members = NoMember | Member(key: string, value: Json, rest: Members)

  datatype Pair = Pair(key: string, text: string)

  /* ---- printing ---- */

  function Hex(n: nat): char
    requires n < 16
  {
    "0123456789abcdef"[n]
  }

  function Escape(c: char): (e: string)
    ensures |e| > 0
  {
    if c == '"' then "\\\"" else if c == '\\' then "\\\\"
    else if c == '\U{08}' then "\\b" else if c == '\U{0C}' then "\\f"
    else if c == '\n' then "\\n" else if c == '\r' then "\\r" else if c == '\t' then "\\t"
    else if c as int < 0x20 then "\\u00" + [Hex(c as int / 16)] + [Hex(c as int % 16)]
    else [c]
  }

  function Escaped(s: string): string { if |s| == 0 then "" else Escape(s[0]) + Escaped(s[1..]) }

  function Quote(s: string): string { "\"" + Escaped(s) + "\"" }

  function Print(v: Json, rank: Rank): string {
    match v
    case Undefined => ""
    case Null => "null"
    case Bool(b) => if b then "true" else "false"
    case Number(text) => text
    case Str(s) => Quote(s)
    case Arr(items) => "[" + PrintItems(items, rank) + "]"
    case Obj(members) => "{" + JoinPairs(SortPairs(PrintMembers(members, rank), rank)) + "}"
  }

  function PrintItems(items: Items, rank: Rank): string {
    match items
    case NoItem => ""
    case Item(head, tail) => Print(head, rank) + if tail.NoItem? then "" else "," + PrintItems(tail, rank)
  }

  // Members that are undefined are left out.
  function PrintMembers(members: Members, rank: Rank): seq<Pair> {
    match members
    case NoMember => []
    case Member(key, value, rest) => (if value.Undefined? then [] else [Pair(key, Print(value, rank))]) + PrintMembers(rest, rank)
  }

  // A stable sort by key.
  function SortPairs(pairs: seq<Pair>, rank: Rank): seq<Pair> {
    if |pairs| == 0 then [] else InsertPair(pairs[0], SortPairs(pairs[1..], rank), rank)
  }

  function InsertPair(p: Pair, sorted: seq<Pair>, rank: Rank): seq<Pair> {
    if |sorted| == 0 || rank(p.key) <= rank(sorted[0].key) then [p] + sorted else [sorted[0]] + InsertPair(p, sorted[1..], rank)
  }

  function JoinPairs(pairs: seq<Pair>): string {
    if |pairs| == 0 then ""
    else Quote(pairs[0].key) + ":" + pairs[0].text + if |pairs| == 1 then "" else "," + JoinPairs(pairs[1..])
  }

  /* ---- what a value means ---- */

  // The meaning of a value: an object is a finite map, whatever the order its members were written in.
  datatype Value = NullValue | BoolValue(b: bool) | NumberValue(text: string) | StrValue(s: string) | ArrValue(items: seq<Value>) | ObjValue(members: map<string, Value>)

  function Meaning(v: Json): Value {
    match v
    case Undefined => NullValue
    case Null => NullValue
    case Bool(b) => BoolValue(b)
    case Number(text) => NumberValue(text)
    case Str(s) => StrValue(s)
    case Arr(items) => ArrValue(ItemsMeaning(items))
    case Obj(members) => ObjValue(MembersMeaning(members))
  }

  function ItemsMeaning(items: Items): seq<Value> {
    match items
    case NoItem => []
    case Item(head, tail) => [Meaning(head)] + ItemsMeaning(tail)
  }

  function MembersMeaning(members: Members): map<string, Value> {
    match members
    case NoMember => map[]
    case Member(key, value, rest) => if value.Undefined? then MembersMeaning(rest) else MembersMeaning(rest)[key := Meaning(value)]
  }

  predicate NumberChar(c: char) { '0' <= c <= '9' || c in {'-', '+', '.', 'e', 'E'} }

  predicate NumberText(text: string) {
    |text| > 0 && ('0' <= text[0] <= '9' || text[0] == '-') && forall i :: 0 <= i < |text| ==> NumberChar(text[i])
  }

  function Keys(members: Members): set<string> {
    match members
    case NoMember => {}
    case Member(key, value, rest) => (if value.Undefined? then {} else {key}) + Keys(rest)
  }

  // A JSON value: numbers are printed numbers, array items are defined, and no key occurs twice in an object. Only
  // the members of an object may be undefined.
  predicate IsJson(v: Json) {
    match v
    case Undefined => false
    case Number(text) => NumberText(text)
    case Arr(items) => AreItems(items)
    case Obj(members) => AreMembers(members)
    case _ => true
  }

  predicate AreItems(items: Items) { items.Item? ==> IsJson(items.head) && AreItems(items.tail) }

  predicate AreMembers(members: Members) {
    members.Member? ==> (members.value.Undefined? || (IsJson(members.value) && members.key !in Keys(members.rest))) && AreMembers(members.rest)
  }

  // No object has two keys the order cannot tell apart.
  predicate NoTies(v: Json, rank: Rank) {
    match v
    case Arr(items) => NoItemTies(items, rank)
    case Obj(members) => NoMemberTies(members, rank) && (forall j, k :: j in Keys(members) && k in Keys(members) && rank(j) == rank(k) ==> j == k)
    case _ => true
  }

  predicate NoItemTies(items: Items, rank: Rank) { items.Item? ==> NoTies(items.head, rank) && NoItemTies(items.tail, rank) }

  predicate NoMemberTies(members: Members, rank: Rank) { members.Member? ==> NoTies(members.value, rank) && NoMemberTies(members.rest, rank) }

  /* ---- the normal form ---- */

  // The value with its undefined members dropped and all members in order.
  function Normal(v: Json, rank: Rank): Json {
    match v
    case Arr(items) => Arr(NormalItems(items, rank))
    case Obj(members) => Obj(NormalMembers(members, rank))
    case _ => v
  }

  function NormalItems(items: Items, rank: Rank): Items {
    match items
    case NoItem => NoItem
    case Item(head, tail) => Item(Normal(head, rank), NormalItems(tail, rank))
  }

  function NormalMembers(members: Members, rank: Rank): Members {
    match members
    case NoMember => NoMember
    case Member(key, value, rest) =>
      if value.Undefined? then NormalMembers(rest, rank) else Insert(key, Normal(value, rank), NormalMembers(rest, rank), rank)
  }

  function Insert(key: string, value: Json, sorted: Members, rank: Rank): Members {
    if sorted.NoMember? || rank(key) <= rank(sorted.key) then Member(key, value, sorted)
    else Member(sorted.key, sorted.value, Insert(key, value, sorted.rest, rank))
  }

  // Prints members in the order they stand.
  function Text(v: Json): string {
    match v
    case Undefined => ""
    case Null => "null"
    case Bool(b) => if b then "true" else "false"
    case Number(text) => text
    case Str(s) => Quote(s)
    case Arr(items) => "[" + ItemsText(items) + "]"
    case Obj(members) => "{" + MembersText(members) + "}"
  }

  function ItemsText(items: Items): string {
    match items
    case NoItem => ""
    case Item(head, tail) => Text(head) + if tail.NoItem? then "" else "," + ItemsText(tail)
  }

  function MembersText(members: Members): string {
    match members
    case NoMember => ""
    case Member(key, value, rest) => Quote(key) + ":" + Text(value) + if rest.NoMember? then "" else "," + MembersText(rest)
  }

  function Pairs(members: Members): seq<Pair> {
    match members
    case NoMember => []
    case Member(key, value, rest) => [Pair(key, Text(value))] + Pairs(rest)
  }

  lemma {:induction false} JoinedPairs(members: Members)
    ensures JoinPairs(Pairs(members)) == MembersText(members)
  {
    if members.Member? {
      JoinedPairs(members.rest);
      assert Pairs(members)[1..] == Pairs(members.rest);
      assert |Pairs(members)| == 1 <==> members.rest.NoMember?;
    }
  }

  lemma {:induction false} InsertedPairs(key: string, value: Json, sorted: Members, rank: Rank)
    ensures Pairs(Insert(key, value, sorted, rank)) == InsertPair(Pair(key, Text(value)), Pairs(sorted), rank)
  {
    if sorted.Member? {
      assert Pairs(sorted)[1..] == Pairs(sorted.rest);
      InsertedPairs(key, value, sorted.rest, rank);
    }
  }

  // Printing a value prints its normal form as it stands.
  lemma {:induction false} PrintsNormal(v: Json, rank: Rank)
    ensures Print(v, rank) == Text(Normal(v, rank))
  {
    match v
    case Arr(items) => ItemsPrintNormal(items, rank);
    case Obj(members) =>
      MembersPrintNormal(members, rank);
      JoinedPairs(NormalMembers(members, rank));
    case _ =>
  }

  lemma {:induction false} ItemsPrintNormal(items: Items, rank: Rank)
    ensures PrintItems(items, rank) == ItemsText(NormalItems(items, rank))
  {
    if items.Item? {
      PrintsNormal(items.head, rank);
      ItemsPrintNormal(items.tail, rank);
    }
  }

  lemma {:induction false} MembersPrintNormal(members: Members, rank: Rank)
    ensures SortPairs(PrintMembers(members, rank), rank) == Pairs(NormalMembers(members, rank))
  {
    if members.Member? {
      MembersPrintNormal(members.rest, rank);
      if !members.value.Undefined? {
        PrintsNormal(members.value, rank);
        assert PrintMembers(members, rank)[1..] == PrintMembers(members.rest, rank);
        InsertedPairs(members.key, Normal(members.value, rank), NormalMembers(members.rest, rank), rank);
      } else {
        assert PrintMembers(members, rank) == PrintMembers(members.rest, rank);
      }
    }
  }

  /* ---- a printed text can be read in one way only ---- */

  predicate Delimited(rest: string) { |rest| == 0 || rest[0] in {',', ']', '}'} }

  // Two texts cut at one place.
  lemma Cut(a: string, b: string, x: string, y: string)
    requires a + x == b + y && |a| == |b|
    ensures a == b && x == y
  {
    assert (a + x)[..|a|] == a && (b + y)[..|b|] == b && (a + x)[|a|..] == x && (b + y)[|b|..] == y;
  }

  lemma EscapeShape(c: char)
    ensures |Escape(c)| == (if Escape(c)[0] != '\\' then 1 else if Escape(c)[1] == 'u' then 6 else 2)
    ensures Escape(c)[0] != '"'
  {}

  lemma EscapeInjective(c: char, d: char)
    requires Escape(c) == Escape(d)
    ensures c == d
  {
    if |Escape(c)| == 6 {
      assert Escape(c)[4] == Hex(c as int / 16) && Escape(c)[5] == Hex(c as int % 16);
      assert Escape(d)[4] == Hex(d as int / 16) && Escape(d)[5] == Hex(d as int % 16);
      HexUnique(c as int / 16, d as int / 16);
      HexUnique(c as int % 16, d as int % 16);
    }
  }

  lemma EscapeUnique(c: char, d: char, x: string, y: string)
    requires Escape(c) + x == Escape(d) + y
    ensures c == d && x == y
  {
    hide Escape;
    EscapeShape(c);
    EscapeShape(d);
    var a, b := Escape(c) + x, Escape(d) + y;
    assert a[0] == Escape(c)[0] && b[0] == Escape(d)[0];
    if Escape(c)[0] == '\\' { assert a[1] == Escape(c)[1] && b[1] == Escape(d)[1]; }
    Cut(Escape(c), Escape(d), x, y);
    EscapeInjective(c, d);
  }

  lemma HexUnique(m: nat, n: nat)
    requires m < 16 && n < 16
    ensures Hex(m) == Hex(n) ==> m == n
  {}

  // What follows an opening quote.
  function Quoted(s: string, x: string): string { Escaped(s) + ("\"" + x) }

  lemma QuotedStep(s: string, x: string)
    ensures |s| > 0 ==> Quoted(s, x) == Escape(s[0]) + Quoted(s[1..], x)
    ensures |s| == 0 ==> Quoted(s, x) == "\"" + x
    ensures Quote(s) + x == "\"" + Quoted(s, x)
  {
    hide Escape;
  }

  lemma QuoteUnique(s: string, t: string, x: string, y: string)
    requires Quote(s) + x == Quote(t) + y
    ensures s == t && x == y
  {
    hide Quote, Quoted;
    QuotedStep(s, x);
    QuotedStep(t, y);
    Cut("\"", "\"", Quoted(s, x), Quoted(t, y));
    QuotedUnique(s, t, x, y);
  }

  lemma {:induction false} QuotedUnique(s: string, t: string, x: string, y: string)
    requires Quoted(s, x) == Quoted(t, y)
    ensures s == t && x == y
  {
    hide Escape, Quoted, Quote;
    QuotedStep(s, x);
    QuotedStep(t, y);
    if |s| > 0 { EscapeShape(s[0]); }
    if |t| > 0 { EscapeShape(t[0]); }
    assert |s| > 0 ==> Quoted(s, x)[0] != '"';
    assert |t| > 0 ==> Quoted(t, y)[0] != '"';
    if |s| > 0 {
      EscapeUnique(s[0], t[0], Quoted(s[1..], x), Quoted(t[1..], y));
      QuotedUnique(s[1..], t[1..], x, y);
    } else {
      Cut("\"", "\"", x, y);
    }
  }

  // Every value in print is defined.
  predicate Printable(v: Json) {
    match v
    case Undefined => false
    case Number(text) => NumberText(text)
    case Arr(items) => PrintableItems(items)
    case Obj(members) => PrintableMembers(members)
    case _ => true
  }

  predicate PrintableItems(items: Items) { items.Item? ==> Printable(items.head) && PrintableItems(items.tail) }

  predicate PrintableMembers(members: Members) { members.Member? ==> Printable(members.value) && PrintableMembers(members.rest) }

  lemma NumberUnique(s: string, t: string, x: string, y: string)
    requires NumberText(s) && NumberText(t) && Delimited(x) && Delimited(y) && s + x == t + y
    ensures s == t && x == y
  {
    NumberEnds(s, t, x, y);
    NumberEnds(t, s, y, x);
    Cut(s, t, x, y);
  }

  lemma NumberEnds(s: string, t: string, x: string, y: string)
    requires NumberText(t) && Delimited(x) && s + x == t + y
    ensures |t| <= |s|
  {
    assert forall k :: 0 <= k < |t| ==> (t + y)[k] == t[k] && NumberChar((t + y)[k]);
    if |x| > 0 { assert (s + x)[|s|] == x[0] && !NumberChar((s + x)[|s|]); }
  }

  // The first character tells the kinds of values apart.
  function Kind(v: Json): int {
    match v
    case Undefined => 0
    case Null => 1
    case Bool(b) => if b then 2 else 3
    case Number(_) => 4
    case Str(_) => 5
    case Arr(_) => 6
    case Obj(_) => 7
  }

  lemma FirstChar(v: Json)
    requires Printable(v)
    ensures |Text(v)| > 0 && Text(v)[0] !in {',', ']', '}'}
    ensures var c := Text(v)[0];
            && (c == 'n' <==> v.Null?) && (c == 't' <==> Kind(v) == 2) && (c == 'f' <==> Kind(v) == 3)
            && (c == '"' <==> v.Str?) && (c == '[' <==> v.Arr?) && (c == '{' <==> v.Obj?)
  {}

  lemma ArrText(items: Items, x: string)
    ensures Text(Arr(items)) + x == "[" + (ItemsText(items) + ("]" + x))
  {
    hide ItemsText;
  }

  lemma ObjText(members: Members, x: string)
    ensures Text(Obj(members)) + x == "{" + (MembersText(members) + ("}" + x))
  {
    hide MembersText;
  }

  lemma WordUnique(v: Json, w: Json, x: string, y: string)
    requires (v.Null? || v.Bool?) && Kind(v) == Kind(w) && Text(v) + x == Text(w) + y
    ensures v == w && x == y
  {
    Cut(Text(v), Text(w), x, y);
  }

  lemma {:induction false} TextUnique(v: Json, w: Json, x: string, y: string)
    requires Printable(v) && Printable(w) && Delimited(x) && Delimited(y) && Text(v) + x == Text(w) + y
    ensures v == w && x == y
    decreases v
  {
    FirstChar(v);
    FirstChar(w);
    assert (Text(v) + x)[0] == Text(v)[0] && (Text(w) + y)[0] == Text(w)[0];
    KindUnique(v, w);
    match v
    case Null => WordUnique(v, w, x, y);
    case Bool(b) => WordUnique(v, w, x, y);
    case Number(text) => NumberUnique(text, w.text, x, y);
    case Str(s) => QuoteUnique(s, w.s, x, y);
    case Arr(items) => ArrUnique(items, w.items, x, y);
    case Obj(members) => ObjUnique(members, w.members, x, y);
  }

  lemma KindUnique(v: Json, w: Json)
    requires Printable(v) && Printable(w) && Text(v) != "" && Text(w) != "" && Text(v)[0] == Text(w)[0]
    ensures Kind(v) == Kind(w)
  {
    FirstChar(v);
    FirstChar(w);
  }

  lemma {:induction false} ArrUnique(a: Items, b: Items, x: string, y: string)
    requires PrintableItems(a) && PrintableItems(b) && Text(Arr(a)) + x == Text(Arr(b)) + y
    ensures a == b && x == y
    decreases a, 1
  {
    hide Text, ItemsText;
    ArrText(a, x);
    ArrText(b, y);
    Cut("[", "[", ItemsText(a) + ("]" + x), ItemsText(b) + ("]" + y));
    ItemsUnique(a, b, x, y);
  }

  lemma {:induction false} ObjUnique(a: Members, b: Members, x: string, y: string)
    requires PrintableMembers(a) && PrintableMembers(b) && Text(Obj(a)) + x == Text(Obj(b)) + y
    ensures a == b && x == y
    decreases a, 1
  {
    hide Text, MembersText;
    ObjText(a, x);
    ObjText(b, y);
    Cut("{", "{", MembersText(a) + ("}" + x), MembersText(b) + ("}" + y));
    MembersUnique(a, b, x, y);
  }

  // The text that follows the first item, with what follows the array.
  function ItemsTail(items: Items, x: string): (t: string)
    requires items.Item?
    ensures |t| > 0 && t[0] == (if items.tail.NoItem? then ']' else ',')
  {
    if items.tail.NoItem? then "]" + x else "," + (ItemsText(items.tail) + ("]" + x))
  }

  lemma ItemsSplit(items: Items, x: string)
    ensures items.Item? ==> ItemsText(items) + ("]" + x) == Text(items.head) + ItemsTail(items, x)
    ensures items.NoItem? ==> ItemsText(items) + ("]" + x) == "]" + x
  {
    hide Text;
    if items.Item? {
      var tail := if items.tail.NoItem? then "" else "," + ItemsText(items.tail);
      Assoc(Text(items.head), tail, "]" + x);
      if items.tail.Item? { Assoc(",", ItemsText(items.tail), "]" + x); } else { Assoc("", "]", x); }
    }
  }

  lemma Assoc(a: string, b: string, c: string)
    ensures (a + b) + c == a + (b + c)
  {}

  // A text of items starts with the closing bracket exactly when there is none.
  lemma ItemsStart(items: Items, x: string)
    requires PrintableItems(items)
    ensures |ItemsText(items) + ("]" + x)| > 0
    ensures (ItemsText(items) + ("]" + x))[0] == ']' <==> items.NoItem?
  {
    hide Text, ItemsTail;
    ItemsSplit(items, x);
    if items.Item? { FirstChar(items.head); }
  }

  lemma {:induction false} ItemsUnique(a: Items, b: Items, x: string, y: string)
    requires PrintableItems(a) && PrintableItems(b) && ItemsText(a) + ("]" + x) == ItemsText(b) + ("]" + y)
    ensures a == b && x == y
    decreases a, 0
  {
    hide Text, ItemsText;
    ItemsStart(a, x);
    ItemsStart(b, y);
    ItemsSplit(a, x);
    ItemsSplit(b, y);
    if a.NoItem? {
      Cut("]", "]", x, y);
    } else {
      TextUnique(a.head, b.head, ItemsTail(a, x), ItemsTail(b, y));
      if a.tail.Item? {
        Cut(",", ",", ItemsText(a.tail) + ("]" + x), ItemsText(b.tail) + ("]" + y));
        ItemsUnique(a.tail, b.tail, x, y);
      } else {
        Cut("]", "]", x, y);
      }
    }
  }

  function MembersTail(members: Members, x: string): (t: string)
    requires members.Member?
    ensures |t| > 0 && t[0] == (if members.rest.NoMember? then '}' else ',')
  {
    if members.rest.NoMember? then "}" + x else "," + (MembersText(members.rest) + ("}" + x))
  }

  lemma MembersSplit(members: Members, x: string)
    ensures members.Member? ==> MembersText(members) + ("}" + x) == Quote(members.key) + (":" + (Text(members.value) + MembersTail(members, x)))
    ensures members.NoMember? ==> MembersText(members) + ("}" + x) == "}" + x
  {
    hide Text, Quote;
    if members.Member? {
      if members.rest.NoMember? { LastMember(members, x); } else { MoreMembers(members, x); }
    }
  }

  lemma LastMember(members: Members, x: string)
    requires members.Member? && members.rest.NoMember?
    ensures MembersText(members) + ("}" + x) == Quote(members.key) + (":" + (Text(members.value) + MembersTail(members, x)))
  {
    hide Text, Quote;
    Regroup(Quote(members.key), Text(members.value), "", "}" + x);
  }

  lemma MoreMembers(members: Members, x: string)
    requires members.Member? && members.rest.Member?
    ensures MembersText(members) + ("}" + x) == Quote(members.key) + (":" + (Text(members.value) + MembersTail(members, x)))
  {
    hide Text, Quote;
    Regroup(Quote(members.key), Text(members.value), "," + MembersText(members.rest), "}" + x);
    Assoc(",", MembersText(members.rest), "}" + x);
  }

  lemma Regroup(key: string, value: string, tail: string, x: string)
    ensures (key + ":" + value + tail) + x == key + (":" + (value + (tail + x)))
  {}

  lemma MembersStart(members: Members, x: string)
    ensures |MembersText(members) + ("}" + x)| > 0
    ensures (MembersText(members) + ("}" + x))[0] == '}' <==> members.NoMember?
  {
    hide Text, MembersTail;
    MembersSplit(members, x);
  }

  lemma {:induction false} MembersUnique(a: Members, b: Members, x: string, y: string)
    requires PrintableMembers(a) && PrintableMembers(b) && MembersText(a) + ("}" + x) == MembersText(b) + ("}" + y)
    ensures a == b && x == y
    decreases a, 0
  {
    hide Text, MembersText, Quote;
    MembersStart(a, x);
    MembersStart(b, y);
    MembersSplit(a, x);
    MembersSplit(b, y);
    if a.NoMember? {
      Cut("}", "}", x, y);
    } else {
      var atail, btail := Text(a.value) + MembersTail(a, x), Text(b.value) + MembersTail(b, y);
      QuoteUnique(a.key, b.key, ":" + atail, ":" + btail);
      Cut(":", ":", atail, btail);
      TextUnique(a.value, b.value, MembersTail(a, x), MembersTail(b, y));
      if a.rest.Member? {
        Cut(",", ",", MembersText(a.rest) + ("}" + x), MembersText(b.rest) + ("}" + y));
        MembersUnique(a.rest, b.rest, x, y);
      } else {
        Cut("}", "}", x, y);
      }
    }
  }

  /* ---- the normal form means the same, and its meaning determines it ---- */

  lemma {:induction false} NormalKeeps(v: Json, rank: Rank)
    requires IsJson(v)
    ensures Printable(Normal(v, rank)) && Meaning(Normal(v, rank)) == Meaning(v)
  {
    match v
    case Arr(items) => NormalKeepsItems(items, rank);
    case Obj(members) => NormalKeepsMembers(members, rank);
    case _ =>
  }

  lemma {:induction false} NormalKeepsItems(items: Items, rank: Rank)
    requires AreItems(items)
    ensures PrintableItems(NormalItems(items, rank)) && ItemsMeaning(NormalItems(items, rank)) == ItemsMeaning(items)
  {
    if items.Item? {
      NormalKeeps(items.head, rank);
      NormalKeepsItems(items.tail, rank);
    }
  }

  lemma {:induction false} NormalKeepsMembers(members: Members, rank: Rank)
    requires AreMembers(members)
    ensures PrintableMembers(NormalMembers(members, rank)) && MembersMeaning(NormalMembers(members, rank)) == MembersMeaning(members)
    ensures Keys(NormalMembers(members, rank)) == Keys(members) == MembersMeaning(members).Keys
  {
    if members.Member? {
      NormalKeepsMembers(members.rest, rank);
      if !members.value.Undefined? {
        NormalKeeps(members.value, rank);
        Inserted(members.key, Normal(members.value, rank), NormalMembers(members.rest, rank), rank);
      }
    }
  }

  lemma Inserted(key: string, value: Json, sorted: Members, rank: Rank)
    requires PrintableMembers(sorted) && Printable(value) && key !in Keys(sorted)
    ensures var m := Insert(key, value, sorted, rank);
            PrintableMembers(m) && Keys(m) == Keys(sorted) + {key} && MembersMeaning(m) == MembersMeaning(sorted)[key := Meaning(value)]
  {
    InsertedKeys(key, value, sorted, rank);
    InsertedMeaning(key, value, sorted, rank);
  }

  lemma {:induction false} InsertedKeys(key: string, value: Json, sorted: Members, rank: Rank)
    requires PrintableMembers(sorted) && Printable(value)
    ensures var m := Insert(key, value, sorted, rank); PrintableMembers(m) && Keys(m) == Keys(sorted) + {key}
  {
    hide Meaning;
    if sorted.Member? && !(rank(key) <= rank(sorted.key)) { InsertedKeys(key, value, sorted.rest, rank); }
  }

  lemma {:induction false} InsertedMeaning(key: string, value: Json, sorted: Members, rank: Rank)
    requires PrintableMembers(sorted) && Printable(value) && key !in Keys(sorted)
    ensures MembersMeaning(Insert(key, value, sorted, rank)) == MembersMeaning(sorted)[key := Meaning(value)]
  {
    hide Meaning;
    if sorted.Member? && !(rank(key) <= rank(sorted.key)) {
      InsertedMeaning(key, value, sorted.rest, rank);
      assert key != sorted.key;
    }
  }

  // Strictly increasing keys: then a key's place is determined.
  predicate Increasing(members: Members, rank: Rank) {
    members.Member? ==> !members.value.Undefined? && Increasing(members.rest, rank) && forall k :: k in Keys(members.rest) ==> rank(members.key) < rank(k)
  }

  lemma {:induction false} InsertIncreasing(key: string, value: Json, sorted: Members, rank: Rank)
    requires Increasing(sorted, rank) && PrintableMembers(sorted) && Printable(value) && key !in Keys(sorted) && forall k :: k in Keys(sorted) ==> rank(k) != rank(key)
    ensures Increasing(Insert(key, value, sorted, rank), rank)
  {
    if sorted.Member? {
      if rank(key) <= rank(sorted.key) {
        assert rank(sorted.key) != rank(key);
      } else {
        InsertIncreasing(key, value, sorted.rest, rank);
        Inserted(key, value, sorted.rest, rank);
      }
    }
  }

  lemma {:induction false} NormalIncreasing(members: Members, rank: Rank)
    requires AreMembers(members) && forall j, k :: j in Keys(members) && k in Keys(members) && rank(j) == rank(k) ==> j == k
    ensures Increasing(NormalMembers(members, rank), rank)
  {
    if members.Member? {
      NormalIncreasing(members.rest, rank);
      NormalKeepsMembers(members.rest, rank);
      if !members.value.Undefined? {
        NormalKeeps(members.value, rank);
        InsertIncreasing(members.key, Normal(members.value, rank), NormalMembers(members.rest, rank), rank);
      }
    }
  }

  // Ordered members are determined by the map they mean.
  lemma {:induction false} MeaningDetermines(v: Json, w: Json, rank: Rank)
    requires IsJson(v) && IsJson(w) && NoTies(v, rank) && NoTies(w, rank) && Meaning(v) == Meaning(w)
    ensures Normal(v, rank) == Normal(w, rank)
    decreases v
  {
    match v
    case Arr(items) => ItemsDetermine(items, w.items, rank);
    case Obj(members) =>
      NormalIncreasing(members, rank);
      NormalIncreasing(w.members, rank);
      NormalKeepsMembers(members, rank);
      NormalKeepsMembers(w.members, rank);
      SameValues(members, w.members, rank);
      IncreasingUnique(NormalMembers(members, rank), NormalMembers(w.members, rank), rank);
    case _ =>
  }

  lemma {:induction false} ItemsDetermine(a: Items, b: Items, rank: Rank)
    requires AreItems(a) && AreItems(b) && NoItemTies(a, rank) && NoItemTies(b, rank) && ItemsMeaning(a) == ItemsMeaning(b)
    ensures NormalItems(a, rank) == NormalItems(b, rank)
    decreases a
  {
    if a.Item? {
      assert ItemsMeaning(a)[0] == ItemsMeaning(b)[0] && ItemsMeaning(a)[1..] == ItemsMeaning(b)[1..];
      assert ItemsMeaning(a)[1..] == ItemsMeaning(a.tail) && ItemsMeaning(b)[1..] == ItemsMeaning(b.tail);
      MeaningDetermines(a.head, b.head, rank);
      ItemsDetermine(a.tail, b.tail, rank);
    }
  }

  // The value printed for a key.
  function At(members: Members, key: string): Json {
    if members.NoMember? then Undefined else if members.key == key && !members.value.Undefined? then members.value else At(members.rest, key)
  }

  lemma {:induction false} AtMeans(members: Members, key: string)
    requires AreMembers(members) && key in Keys(members)
    ensures key in MembersMeaning(members)
    ensures IsJson(At(members, key)) && MembersMeaning(members)[key] == Meaning(At(members, key))
  {
    if !(members.key == key && !members.value.Undefined?) { AtMeans(members.rest, key); }
  }

  lemma {:induction false} AtNormal(members: Members, key: string, rank: Rank)
    requires AreMembers(members) && key in Keys(members)
    ensures At(NormalMembers(members, rank), key) == Normal(At(members, key), rank)
  {
    NormalKeepsMembers(members.rest, rank);
    if !members.value.Undefined? {
      NormalKeeps(members.value, rank);
      AtInserted(members.key, Normal(members.value, rank), NormalMembers(members.rest, rank), rank, key);
    }
    if !(members.key == key && !members.value.Undefined?) { AtNormal(members.rest, key, rank); }
  }

  lemma {:induction false} AtInserted(key: string, value: Json, sorted: Members, rank: Rank, k: string)
    requires !value.Undefined? && key !in Keys(sorted) && PrintableMembers(sorted)
    ensures At(Insert(key, value, sorted, rank), k) == if k == key then value else At(sorted, k)
  {
    if sorted.Member? && !(rank(key) <= rank(sorted.key)) { AtInserted(key, value, sorted.rest, rank, k); }
  }

  // Equal maps print equal values for every key.
  lemma {:induction false} SameValues(a: Members, b: Members, rank: Rank)
    requires AreMembers(a) && AreMembers(b) && NoMemberTies(a, rank) && NoMemberTies(b, rank) && MembersMeaning(a) == MembersMeaning(b)
    ensures forall k :: k in Keys(a) ==> At(NormalMembers(a, rank), k) == At(NormalMembers(b, rank), k)
    decreases a, 0
  {
    NormalKeepsMembers(a, rank);
    NormalKeepsMembers(b, rank);
    forall k | k in Keys(a) ensures At(NormalMembers(a, rank), k) == At(NormalMembers(b, rank), k) {
      AtMeans(a, k);
      AtMeans(b, k);
      AtNormal(a, k, rank);
      AtNormal(b, k, rank);
      AtIsInside(a, k);
      AtTies(a, k, rank);
      AtTies(b, k, rank);
      MeaningDetermines(At(a, k), At(b, k), rank);
    }
  }

  lemma {:induction false} AtIsInside(members: Members, key: string)
    requires key in Keys(members)
    ensures At(members, key) < members
  {
    if !(members.key == key && !members.value.Undefined?) { AtIsInside(members.rest, key); }
  }

  lemma {:induction false} AtTies(members: Members, key: string, rank: Rank)
    requires NoMemberTies(members, rank) && key in Keys(members)
    ensures NoTies(At(members, key), rank)
  {
    if !(members.key == key && !members.value.Undefined?) { AtTies(members.rest, key, rank); }
  }

  lemma {:induction false} IncreasingUnique(a: Members, b: Members, rank: Rank)
    requires Increasing(a, rank) && Increasing(b, rank) && Keys(a) == Keys(b) && forall k :: k in Keys(a) ==> At(a, k) == At(b, k)
    ensures a == b
  {
    assert a.Member? ==> a.key in Keys(a);
    assert b.Member? ==> b.key in Keys(b);
    if a.Member? {
      assert a.key in Keys(b) && b.key in Keys(a);
      assert a.key == b.key;
      assert At(a, a.key) == At(b, a.key);
      assert a.key !in Keys(a.rest) && b.key !in Keys(b.rest);
      assert Keys(a.rest) == Keys(a) - {a.key} && Keys(b.rest) == Keys(b) - {b.key};
      forall k | k in Keys(a.rest) ensures At(a.rest, k) == At(b.rest, k) { assert At(a, k) == At(b, k); }
      IncreasingUnique(a.rest, b.rest, rank);
    }
  }

  /* ---- the comparison is right, and only as good as the order of keys ---- */

  // Equal texts mean equal values, always: a text is printed by one meaning only.
  lemma EqualTextsMeanEqual(v: Json, w: Json, rank: Rank)
    requires IsJson(v) && IsJson(w) && Print(v, rank) == Print(w, rank)
    ensures Meaning(v) == Meaning(w)
  {
    PrintsNormal(v, rank);
    PrintsNormal(w, rank);
    NormalKeeps(v, rank);
    NormalKeeps(w, rank);
    assert Text(Normal(v, rank)) + "" == Text(Normal(w, rank)) + "";
    TextUnique(Normal(v, rank), Normal(w, rank), "", "");
  }

  // Whether keys tie is a matter of the meaning: two values that mean the same have ties or not together.
  lemma {:induction false} TiesOfMeaning(v: Json, w: Json, rank: Rank)
    requires IsJson(v) && IsJson(w) && Meaning(v) == Meaning(w) && NoTies(v, rank)
    ensures NoTies(w, rank)
    decreases v
  {
    match v
    case Arr(items) => TiesOfItems(items, w.items, rank);
    case Obj(members) =>
      NormalKeepsMembers(members, rank);
      NormalKeepsMembers(w.members, rank);
      forall k | k in Keys(w.members) ensures NoTies(At(w.members, k), rank) {
        AtMeans(members, k);
        AtMeans(w.members, k);
        AtIsInside(members, k);
        AtTies(members, k, rank);
        TiesOfMeaning(At(members, k), At(w.members, k), rank);
      }
      TiesOfMembers(w.members, rank);
    case _ =>
  }

  lemma {:induction false} TiesOfItems(a: Items, b: Items, rank: Rank)
    requires AreItems(a) && AreItems(b) && ItemsMeaning(a) == ItemsMeaning(b) && NoItemTies(a, rank)
    ensures NoItemTies(b, rank)
    decreases a
  {
    if a.Item? {
      assert ItemsMeaning(a)[0] == ItemsMeaning(b)[0] && ItemsMeaning(a)[1..] == ItemsMeaning(b)[1..];
      assert ItemsMeaning(a)[1..] == ItemsMeaning(a.tail) && ItemsMeaning(b)[1..] == ItemsMeaning(b.tail);
      TiesOfMeaning(a.head, b.head, rank);
      TiesOfItems(a.tail, b.tail, rank);
    }
  }

  lemma {:induction false} TiesOfMembers(members: Members, rank: Rank)
    requires AreMembers(members) && forall k :: k in Keys(members) ==> NoTies(At(members, k), rank)
    ensures NoMemberTies(members, rank)
  {
    if members.Member? {
      if !members.value.Undefined? { assert At(members, members.key) == members.value; }
      forall k | k in Keys(members.rest) ensures NoTies(At(members.rest, k), rank) { assert At(members, k) == At(members.rest, k); }
      TiesOfMembers(members.rest, rank);
    }
  }

  // Where the order tells the keys of every object apart, a value prints like another exactly when they mean the same: the
  // order their members were written in, and members that are undefined, make no difference.
  lemma PrintIsCanonical(v: Json, w: Json, rank: Rank)
    requires IsJson(v) && IsJson(w) && NoTies(v, rank)
    ensures Print(v, rank) == Print(w, rank) <==> Meaning(v) == Meaning(w)
  {
    PrintsNormal(v, rank);
    PrintsNormal(w, rank);
    if Meaning(v) == Meaning(w) {
      TiesOfMeaning(v, w, rank);
      MeaningDetermines(v, w, rank);
    }
    if Print(v, rank) == Print(w, rank) { EqualTextsMeanEqual(v, w, rank); }
  }

  /* ---- where keys tie, a value has a twin that means the same and prints differently ---- */

  // Key j stands before key k.
  predicate First(members: Members, j: string, k: string) {
    members.Member? && (members.key == j || (members.key != k && First(members.rest, j, k)))
  }

  lemma {:induction false} OneFirst(members: Members, j: string, k: string)
    requires j != k && First(members, j, k)
    ensures !First(members, k, j)
  {
    if members.key != j { OneFirst(members.rest, j, k); }
  }

  // A key is inserted before every key it ties with.
  lemma {:induction false} InsertedFirst(j: string, value: Json, sorted: Members, k: string, rank: Rank)
    requires k in Keys(sorted) && j !in Keys(sorted) && PrintableMembers(sorted) && rank(j) == rank(k)
    ensures First(Insert(j, value, sorted, rank), j, k)
  {
    if !(rank(j) <= rank(sorted.key)) { InsertedFirst(j, value, sorted.rest, k, rank); }
  }

  function Without(members: Members, key: string): Members {
    match members
    case NoMember => NoMember
    case Member(k, value, rest) => if k == key && !value.Undefined? then rest else Member(k, value, Without(rest, key))
  }

  lemma {:induction false} WithoutKey(members: Members, key: string)
    requires AreMembers(members) && key in Keys(members)
    ensures AreMembers(Without(members, key)) && Keys(Without(members, key)) == Keys(members) - {key}
    ensures key in MembersMeaning(members) && IsJson(At(members, key))
    ensures MembersMeaning(Without(members, key))[key := Meaning(At(members, key))] == MembersMeaning(members)
  {
    if !(members.key == key && !members.value.Undefined?) { WithoutKey(members.rest, key); }
  }

  // The same members with one of them written first.
  function Fronted(members: Members, key: string): Members { Member(key, At(members, key), Without(members, key)) }

  lemma FrontedFirst(members: Members, j: string, k: string, rank: Rank)
    requires AreMembers(members) && j in Keys(members) && k in Keys(members) && j != k && rank(j) == rank(k)
    ensures AreMembers(Fronted(members, j)) && MembersMeaning(Fronted(members, j)) == MembersMeaning(members)
    ensures First(NormalMembers(Fronted(members, j), rank), j, k)
  {
    WithoutKey(members, j);
    NormalKeepsMembers(Without(members, j), rank);
    InsertedFirst(j, Normal(At(members, j), rank), NormalMembers(Without(members, j), rank), k, rank);
  }

  lemma {:induction false} Twin(v: Json, rank: Rank) returns (w: Json)
    requires IsJson(v) && !NoTies(v, rank)
    ensures IsJson(w) && Meaning(w) == Meaning(v) && Normal(w, rank) != Normal(v, rank)
    decreases v
  {
    match v {
      case Arr(items) =>
        var twins := TwinItems(items, rank);
        w := Arr(twins);
      case Obj(members) =>
        if NoMemberTies(members, rank) {
          var j, k :| j in Keys(members) && k in Keys(members) && rank(j) == rank(k) && j != k;
          FrontedFirst(members, j, k, rank);
          FrontedFirst(members, k, j, rank);
          OneFirst(NormalMembers(Fronted(members, j), rank), j, k);
          w := Obj(if NormalMembers(Fronted(members, j), rank) != NormalMembers(members, rank) then Fronted(members, j) else Fronted(members, k));
        } else {
          var twins, key := TwinMembers(members, rank);
          AtNormal(members, key, rank);
          AtNormal(twins, key, rank);
          w := Obj(twins);
        }
    }
  }

  lemma {:induction false} TwinItems(items: Items, rank: Rank) returns (twins: Items)
    requires AreItems(items) && !NoItemTies(items, rank)
    ensures AreItems(twins) && ItemsMeaning(twins) == ItemsMeaning(items) && NormalItems(twins, rank) != NormalItems(items, rank)
    decreases items
  {
    if !NoTies(items.head, rank) {
      var head := Twin(items.head, rank);
      twins := Item(head, items.tail);
    } else {
      var tail := TwinItems(items.tail, rank);
      twins := Item(items.head, tail);
    }
  }

  lemma {:induction false} TwinMembers(members: Members, rank: Rank) returns (twins: Members, key: string)
    requires AreMembers(members) && !NoMemberTies(members, rank)
    ensures AreMembers(twins) && MembersMeaning(twins) == MembersMeaning(members) && Keys(twins) == Keys(members)
    ensures key in Keys(members) && Normal(At(twins, key), rank) != Normal(At(members, key), rank)
    decreases members
  {
    if !NoTies(members.value, rank) {
      var value := Twin(members.value, rank);
      twins, key := Member(members.key, value, members.rest), members.key;
    } else {
      var rest: Members;
      rest, key := TwinMembers(members.rest, rank);
      twins := Member(members.key, members.value, rest);
    }
  }

  // Printing is canonical for a value exactly when the order tells apart the keys of each of its objects.
  lemma CanonicalExactlyWithoutTies(v: Json, rank: Rank)
    requires IsJson(v)
    ensures NoTies(v, rank) <==> forall w :: IsJson(w) && Meaning(w) == Meaning(v) ==> Print(w, rank) == Print(v, rank)
  {
    if NoTies(v, rank) {
      forall w | IsJson(w) && Meaning(w) == Meaning(v) ensures Print(w, rank) == Print(v, rank) { PrintIsCanonical(v, w, rank); }
    } else {
      var w := Twin(v, rank);
      PrintsNormal(v, rank);
      PrintsNormal(w, rank);
      NormalKeeps(v, rank);
      NormalKeeps(w, rank);
      if Print(w, rank) == Print(v, rank) {
        assert Text(Normal(v, rank)) + "" == Text(Normal(w, rank)) + "";
        TextUnique(Normal(v, rank), Normal(w, rank), "", "");
      }
    }
  }

  // With a tie, an object is printed in the order it was written: two members written in either order print equally
  // exactly when the order of keys tells them apart.
  lemma TiesBreakCanonicity(j: string, k: string, v: Json, w: Json, rank: Rank)
    requires j != k && IsJson(v) && IsJson(w)
    ensures var a, b := Obj(Member(j, v, Member(k, w, NoMember))), Obj(Member(k, w, Member(j, v, NoMember)));
            && IsJson(a) && IsJson(b) && Meaning(a) == Meaning(b)
            && (Print(a, rank) == Print(b, rank) <==> rank(j) != rank(k))
  {
    hide Print, IsJson, Meaning, Normal, Text;
    var a, b := Obj(Member(j, v, Member(k, w, NoMember))), Obj(Member(k, w, Member(j, v, NoMember)));
    TwoMembers(j, k, v, w, rank);
    TwoMembers(k, j, w, v, rank);
    assert map[][k := Meaning(w)][j := Meaning(v)] == map[][j := Meaning(v)][k := Meaning(w)];
    PrintsNormal(a, rank);
    PrintsNormal(b, rank);
    NormalKeeps(a, rank);
    NormalKeeps(b, rank);
    if Print(a, rank) == Print(b, rank) {
      assert Text(Normal(a, rank)) + "" == Text(Normal(b, rank)) + "";
      TextUnique(Normal(a, rank), Normal(b, rank), "", "");
    }
  }

  lemma TwoMembers(j: string, k: string, v: Json, w: Json, rank: Rank)
    requires j != k && IsJson(v) && IsJson(w)
    ensures var a := Obj(Member(j, v, Member(k, w, NoMember)));
            && IsJson(a) && Meaning(a) == ObjValue(map[][k := Meaning(w)][j := Meaning(v)])
            && Normal(a, rank) == (if rank(j) <= rank(k) then Obj(Member(j, Normal(v, rank), Member(k, Normal(w, rank), NoMember)))
                                   else Obj(Member(k, Normal(w, rank), Member(j, Normal(v, rank), NoMember))))
  {
    var last := Member(k, w, NoMember);
    assert Keys(last) == {k} && AreMembers(last);
    assert MembersMeaning(last) == map[][k := Meaning(w)];
    assert NormalMembers(last, rank) == Member(k, Normal(w, rank), NoMember);
    assert NormalMembers(Member(j, v, last), rank) == Insert(j, Normal(v, rank), NormalMembers(last, rank), rank);
    assert Insert(j, Normal(v, rank), NoMember, rank) == Member(j, Normal(v, rank), NoMember);
  }

  // An array is no exception to its own rule only while its items are defined: an undefined item prints as nothing.
  lemma UndefinedItemsVanish(rank: Rank)
    ensures Print(Arr(Item(Undefined, NoItem)), rank) == Print(Arr(NoItem), rank)
  {}
}
