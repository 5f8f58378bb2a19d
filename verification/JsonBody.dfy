/** The benchmark's JSON body, padded field by field to an exact size. `prefix` is what the body
    opens with: its brace and the two fields a loop reads. */
module JsonBody {
  import opened Common

  const PAD_WIDTH := 16
  const FIELDS := 0x1_0000_0000

  /** What building a body comes to: the body, the failed size assertion, or the overflow of the
      field counter where the build checks for it. */
  datatype Outcome = Built(body: string) | WrongSize | CounterOverflow

  function DigitChar(d: nat): char
    requires d < 10
  {
    ('0' as int + d) as char
  }

  function Digits(n: nat): (s: string)
    ensures s != ""
  {
    if n < 10 then [DigitChar(n)] else Digits(n / 10) + [DigitChar(n % 10)]
  }

  function Key(field: nat): string {
    ",\"f" + Digits(field) + "\":\"\""
  }

  function Repeat(c: char, n: nat): (s: string)
    ensures |s| == n
  {
    seq(n, _ => c)
  }

  /** One padding field holding `width` bytes. */
  function Field(field: nat, width: nat): string {
    ",\"f" + Digits(field) + "\":\"" + Repeat('x', width) + "\""
  }

  function Next(field: nat, limit: nat): nat {
    if field + 1 == limit then 0 else field + 1
  }

  /** The field counter after `n` fields, wrapping at `limit`. */
  function Counter(n: nat, limit: nat): (c: nat)
    requires limit > 0
    ensures c < limit
  {
    if n == 0 then 0 else Next(Counter(n - 1, limit), limit)
  }

  /** The fields of these widths, numbered by the counter. */
  function Padding(widths: seq<nat>, limit: nat): string
    requires limit > 0
  {
    if widths == [] then ""
    else Padding(widths[..|widths| - 1], limit) + Field(Counter(|widths| - 1, limit), widths[|widths| - 1])
  }

  /** A key is at most one digit longer than the one before it. */
  lemma {:induction false} KeyGrowsByOne(n: nat)
    ensures |Digits(n)| <= |Digits(n + 1)| <= |Digits(n)| + 1
  {
    if n >= 9 {
      if n == 9 {
        assert Digits(10) == Digits(1) + [DigitChar(0)];
      } else if n % 10 == 9 {
        assert (n + 1) / 10 == n / 10 + 1;
        KeyGrowsByOne(n / 10);
      } else {
        assert (n + 1) / 10 == n / 10;
      }
    }
  }

  /** The same around the step of a counter that wraps at `limit`. */
  lemma NextKey(field: nat, limit: nat)
    requires field < limit
    ensures |Key(Next(field, limit))| <= |Key(field)| + 1
  {
    if field + 1 == limit {
      assert |Digits(0)| == 1;
    } else {
      KeyGrowsByOne(field);
    }
  }

  /** A field is its key with the padding put before the closing quote. */
  lemma FieldOfKey(field: nat, width: nat)
    ensures |Key(field)| >= 8
    ensures Key(field)[..|Key(field)| - 1] + Repeat('x', width) + "\"" == Field(field, width)
    ensures |Field(field, width)| == |Key(field)| + width
  {
    assert Key(field)[..|Key(field)| - 1] == ",\"f" + Digits(field) + "\":\"";
  }

  /** Whether a body of this size can be padded: it fits one empty field, or needs none. */
  predicate Fits(prefix: string, size: nat) {
    size == |prefix| + 1 || size >= |prefix| + |Key(0)| + 1
  }

  /** A size reached before the counter could overflow: a full field takes at least 24 bytes. */
  predicate CounterSuffices(size: nat) {
    size < (FIELDS - 1) * (PAD_WIDTH + 8)
  }

  predicate FullButLast(widths: seq<nat>) {
    forall i :: 0 <= i < |widths| - 1 ==> widths[i] == PAD_WIDTH
  }

  /** Where the loop stands: the body so far, and either room for the next key, whose predecessors
      are full, or a body closed to the byte. */
  predicate Progress(prefix: string, size: nat, limit: nat, body: string, field: nat, widths: seq<nat>)
    requires limit > 0
  {
    && field == Counter(|widths|, limit)
    && body == prefix + Padding(widths, limit) && FullButLast(widths)
    && (|widths| > 0 ==> Fits(prefix, size))
    && (|widths| == 0 || size == |body| + 1 ||
        (size >= |body| + |Key(field)| + 1 && widths[|widths| - 1] == PAD_WIDTH))
    && (size > |body| + 1 ==> |body| >= (PAD_WIDTH + 8) * |widths|)
  }

  lemma PaddingOneMore(prefix: string, limit: nat, body: string, field: nat, widths: seq<nat>, width: nat)
    requires limit > 0 && field == Counter(|widths|, limit) && body == prefix + Padding(widths, limit)
    ensures body + Field(field, width) == prefix + Padding(widths + [width], limit)
  {
    assert (widths + [width])[..|widths|] == widths;
    assert (prefix + Padding(widths, limit)) + Field(field, width) == prefix + (Padding(widths, limit) + Field(field, width));
  }

  lemma LengthsOneMore(prefix: string, size: nat, limit: nat, body: string, field: nat, widths: seq<nat>, width: nat)
    requires limit > 0 && Progress(prefix, size, limit, body, field, widths)
    requires size >= |body| + |Key(field)| + 1
    requires var room := size - (|body| + |Key(field)| + 1);
      width == if room > PAD_WIDTH + |Key(field)| then PAD_WIDTH else room
    ensures Fits(prefix, size) && (|widths| > 0 ==> widths[|widths| - 1] == PAD_WIDTH)
    ensures var length := |body| + |Key(field)| + width;
      && (size == length + 1 || (size >= length + |Key(Next(field, limit))| + 1 && width == PAD_WIDTH))
      && (size > length + 1 ==> length >= (PAD_WIDTH + 8) * (|widths| + 1))
  {
    FieldOfKey(field, width);
    NextKey(field, limit);
    if |widths| == 0 {
      assert body == prefix + "" == prefix;
    }
  }

  lemma OneMoreField(prefix: string, size: nat, limit: nat, body: string, field: nat, widths: seq<nat>, width: nat)
    requires limit > 0 && Progress(prefix, size, limit, body, field, widths)
    requires size >= |body| + |Key(field)| + 1
    requires var room := size - (|body| + |Key(field)| + 1);
      width == if room > PAD_WIDTH + |Key(field)| then PAD_WIDTH else room
    ensures Progress(prefix, size, limit, body + Field(field, width), Next(field, limit), widths + [width])
    ensures |body + Field(field, width)| > |body|
  {
    FieldOfKey(field, width);
    PaddingOneMore(prefix, limit, body, field, widths, width);
    LengthsOneMore(prefix, size, limit, body, field, widths, width);
  }

  /** Where the loop ends, the body with its brace has the size exactly when the size fits. */
  lemma EndsExactly(prefix: string, size: nat, limit: nat, body: string, field: nat, widths: seq<nat>)
    requires limit > 0 && Progress(prefix, size, limit, body, field, widths) && size < |body| + |Key(field)| + 1
    ensures |body| + 1 == size <==> Fits(prefix, size)
  {
    if |widths| == 0 {
      assert body == prefix + "" == prefix;
    }
  }

  lemma SufficesAtTheEnd(prefix: string, size: nat, limit: nat, body: string, field: nat, widths: seq<nat>)
    requires limit > 0 && Progress(prefix, size, limit, body, field, widths) && size >= |body| + |Key(field)| + 1
    ensures size >= (PAD_WIDTH + 8) * |widths|
  {
    FieldOfKey(field, 0);
  }

  // -- When the field counter overflows ----------------------------------------------------------

  /** The bytes of the first `n` fields at full width. */
  function FullLength(n: nat): nat {
    if n == 0 then 0 else FullLength(n - 1) + |Key(n - 1)| + PAD_WIDTH
  }

  /** The largest body that needs no field after field `i`. */
  function Reach(i: nat): nat {
    FullLength(i + 1) + |Key(i)| + 1
  }

  lemma {:induction false} ReachGrows(i: nat, j: nat)
    requires i <= j
    ensures Reach(i) <= Reach(j)
    decreases j
  {
    if i < j {
      ReachGrows(i, j - 1);
      KeyGrowsByOne(j - 1);
    }
  }

  /** The body takes so many fields that the counter, which ends before `limit`, is counted past it. */
  predicate Overflows(prefix: string, size: nat, limit: nat)
    requires limit > 1
  {
    size > |prefix| + Reach(limit - 2)
  }

  /** Where the counted loop stands: nothing written yet, a body closed to the byte with a field that
      sufficed, or full fields only, with more to write than the last one could hold. */
  predicate Counts(prefix: string, size: nat, body: string, field: nat) {
    || (field == 0 && body == prefix)
    || (field > 0 && size == |body| + 1 && size <= |prefix| + Reach(field - 1))
    || (field > 0 && |body| == |prefix| + FullLength(field) && size > |prefix| + Reach(field - 1))
  }

  lemma CountsOneMore(prefix: string, size: nat, body: string, field: nat, width: nat)
    requires Counts(prefix, size, body, field) && size >= |body| + |Key(field)| + 1
    requires var room := size - (|body| + |Key(field)| + 1);
      width == if room > PAD_WIDTH + |Key(field)| then PAD_WIDTH else room
    ensures Counts(prefix, size, body + Field(field, width), field + 1)
  {
    FieldOfKey(field, width);
  }

  /** The loop gets to the last number of the counter exactly when the body overflows it. */
  lemma CountedOut(prefix: string, size: nat, body: string, field: nat, limit: nat)
    requires limit > 1 && Counts(prefix, size, body, field) && field == limit - 1 && size >= |body| + |Key(field)| + 1
    ensures Overflows(prefix, size, limit)
  {
    FieldOfKey(field, 0);
  }

  lemma NotCountedOut(prefix: string, size: nat, body: string, field: nat, limit: nat)
    requires limit > 1 && Counts(prefix, size, body, field) && field < limit && size < |body| + |Key(field)| + 1
    ensures !Overflows(prefix, size, limit)
  {
    if field == 0 {
      ReachGrows(0, limit - 2);
    } else {
      ReachGrows(field - 1, limit - 2);
      KeyGrowsByOne(field - 1);
    }
  }

  /** Pushes the key up to its last quote, the padding, and the quote. */
  method PushField(body: string, field: nat, width: nat) returns (more: string)
    ensures more == body + Field(field, width)
  {
    var key := Key(field);
    FieldOfKey(field, width);
    more := body + key[..|key| - 1];
    more := more + Repeat('x', width);
    more := more + "\"";
    assert more == body + (key[..|key| - 1] + Repeat('x', width) + "\"");
  }

  /** Where the padding loop stands: its body, and with overflow checks its count. */
  ghost predicate Padded(prefix: string, size: nat, body: string, field: nat, widths: seq<nat>, overflowChecks: bool) {
    && Progress(prefix, size, FIELDS, body, field, widths)
    && (overflowChecks ==> field == |widths| < FIELDS && Counts(prefix, size, body, field))
  }

  /** How wide the next field is: full, when what it leaves can still hold another one. */
  function Width(size: nat, body: string, field: nat): nat
    requires size >= |body| + |Key(field)| + 1
  {
    var room := size - (|body| + |Key(field)| + 1);
    if room > PAD_WIDTH + |Key(field)| then PAD_WIDTH else room
  }

  lemma PaddedOneMore(prefix: string, size: nat, body: string, field: nat, widths: seq<nat>, overflowChecks: bool)
    requires Padded(prefix, size, body, field, widths, overflowChecks) && size >= |body| + |Key(field)| + 1
    ensures var width := Width(size, body, field);
      && |body + Field(field, width)| > |body|
      && (if overflowChecks && field == FIELDS - 1 then Overflows(prefix, size, FIELDS) && !CounterSuffices(size)
          else Padded(prefix, size, body + Field(field, width), Next(field, FIELDS), widths + [width], overflowChecks))
  {
    var width := Width(size, body, field);
    OneMoreField(prefix, size, FIELDS, body, field, widths, width);
    SufficesAtTheEnd(prefix, size, FIELDS, body, field, widths);
    if overflowChecks {
      CountsOneMore(prefix, size, body, field, width);
      if field == FIELDS - 1 {
        CountedOut(prefix, size, body, field, FIELDS);
      }
    }
  }

  lemma PaddedEnds(prefix: string, size: nat, body: string, field: nat, widths: seq<nat>, overflowChecks: bool)
    requires Padded(prefix, size, body, field, widths, overflowChecks) && size < |body| + |Key(field)| + 1
    ensures |body| + 1 == size <==> Fits(prefix, size)
    ensures overflowChecks ==> !Overflows(prefix, size, FIELDS)
  {
    EndsExactly(prefix, size, FIELDS, body, field, widths);
    if overflowChecks {
      NotCountedOut(prefix, size, body, field, FIELDS);
    }
  }

  /** Pads a body to `size` bytes. With overflow checks the counter overflows exactly for the bodies
      that take that many fields. Otherwise it succeeds exactly for the sizes that fit, and a body it
      builds has exactly `size` bytes: the prefix, full-width padding, one last field, `}`. */
  method Build(prefix: string, size: nat, overflowChecks: bool) returns (r: Outcome)
    ensures r.CounterOverflow? <==> overflowChecks && Overflows(prefix, size, FIELDS)
    ensures !r.CounterOverflow? ==> (r.Built? <==> Fits(prefix, size))
    ensures r.Built? ==> |r.body| == size
    ensures r.Built? ==> exists widths: seq<nat> :: r.body == prefix + Padding(widths, FIELDS) + "}" && FullButLast(widths)
    ensures !overflowChecks || CounterSuffices(size) ==> (r.Built? <==> Fits(prefix, size))
  {
    var body := prefix;
    var field: nat := 0;
    ghost var widths: seq<nat> := [];
    assert prefix == prefix + Padding([], FIELDS);
    while size >= |body| + |Key(field)| + 1
      invariant Padded(prefix, size, body, field, widths, overflowChecks)
      decreases size - |body|
    {
      var width := Width(size, body, field);
      PaddedOneMore(prefix, size, body, field, widths, overflowChecks);
      body := PushField(body, field, width);
      if overflowChecks && field == FIELDS - 1 {
        return CounterOverflow;
      }
      widths := widths + [width];
      field := Next(field, FIELDS);
    }
    PaddedEnds(prefix, size, body, field, widths, overflowChecks);
    if |body + "}"| != size {
      return WrongSize;
    }
    return Built(body + "}");
  }

  // -- The body as JSON --------------------------------------------------------------------------

  /** Where the first quote is, or the end. */
  function QuoteAt(s: string): (k: nat)
    ensures k <= |s| && (k < |s| ==> s[k] == '\"') && '\"' !in s[..k]
  {
    if s == "" || s[0] == '\"' then 0
    else
      var k := QuoteAt(s[1..]);
      assert s[..k + 1] == [s[0]] + s[1..][..k];
      k + 1
  }

  /** A text up to its closing quote, and what follows it. */
  function Quoted(s: string): Option<(string, string)> {
    var k := QuoteAt(s);
    if k == |s| then None else Some((s[..k], s[k + 1..]))
  }

  /** The next member of an object, as a comma, a name and a text: name, text, and what follows. */
  function Member(s: string): Option<(string, string, string)> {
    if |s| < 2 || s[..2] != ",\"" then None
    else
      match Quoted(s[2..])
      case None => None
      case Some((name, more)) =>
        if |more| < 2 || more[..2] != ":\"" then None
        else
          match Quoted(more[2..])
          case None => None
          case Some((text, rest)) => Some((name, text, rest))
  }

  /** What follows a member is shorter. */
  lemma MemberTakes(s: string)
    ensures Member(s).Some? ==> |Member(s).value.2| < |s|
  {
  }

  function Members(s: string): seq<(string, string)>
    decreases |s|
  {
    MemberTakes(s);
    match Member(s)
    case None => []
    case Some(m) => [(m.0, m.1)] + Members(m.2)
  }

  lemma {:induction false} QuotedIs(text: string, rest: string)
    requires '\"' !in text
    ensures QuoteAt(text + ['\"'] + rest) == |text| && Quoted(text + ['\"'] + rest) == Some((text, rest))
  {
    var s := text + ['\"'] + rest;
    if text != "" {
      QuotedIs(text[1..], rest);
      assert s[1..] == text[1..] + ['\"'] + rest;
    }
    assert s[..|text|] == text && s[|text| + 1..] == rest;
  }

  lemma {:induction false} DigitsHaveNoQuote(n: nat)
    ensures '\"' !in Digits(n)
  {
    if n >= 10 {
      DigitsHaveNoQuote(n / 10);
    }
  }

  lemma AfterTwo(two: string, rest: string)
    requires |two| == 2
    ensures (two + rest)[..2] == two && (two + rest)[2..] == rest
  {
  }

  lemma MemberIs(name: string, text: string, rest: string)
    requires '\"' !in name && '\"' !in text
    ensures Member(",\"" + (name + ['\"'] + (":\"" + (text + ['\"'] + rest)))) == Some((name, text, rest))
  {
    var inner := text + ['\"'] + rest;
    var more := ":\"" + inner;
    QuotedIs(text, rest);
    AfterTwo(":\"", inner);
    QuotedIs(name, more);
    AfterTwo(",\"", name + ['\"'] + more);
  }

  lemma FieldSplits(name: string, text: string, rest: string)
    ensures ",\"" + name + "\":\"" + text + "\"" + rest == ",\"" + (name + ['\"'] + (":\"" + (text + ['\"'] + rest)))
  {
  }

  lemma FieldOpens(digits: string)
    ensures ",\"f" + digits == ",\"" + ("f" + digits)
  {
  }

  /** A field reads as one member: its numbered name, and its padding. */
  lemma MemberOfField(field: nat, width: nat, rest: string)
    ensures Member(Field(field, width) + rest) == Some(("f" + Digits(field), Repeat('x', width), rest))
  {
    DigitsHaveNoQuote(field);
    FieldOpens(Digits(field));
    FieldSplits("f" + Digits(field), Repeat('x', width), rest);
    MemberIs("f" + Digits(field), Repeat('x', width), rest);
  }

  /** The members the widths stand for, numbered by the counter. */
  function MembersOf(widths: seq<nat>, limit: nat): seq<(string, string)>
    requires limit > 0
  {
    if widths == [] then []
    else
      var n := |widths| - 1;
      MembersOf(widths[..n], limit) + [("f" + Digits(Counter(n, limit)), Repeat('x', widths[n]))]
  }

  lemma Regroup(all: seq<(string, string)>, one: (string, string), rest: seq<(string, string)>)
    ensures (all + [one]) + rest == all + ([one] + rest)
  {
  }

  lemma RegroupText(all: string, one: string, rest: string)
    ensures (all + one) + rest == all + (one + rest)
  {
  }

  lemma {:induction false} PaddingMembers(widths: seq<nat>, limit: nat, rest: string)
    requires limit > 0
    ensures Members(Padding(widths, limit) + rest) == MembersOf(widths, limit) + Members(rest)
  {
    if widths == [] {
      assert "" + rest == rest;
    } else {
      var n := |widths| - 1;
      var field := Field(Counter(n, limit), widths[n]);
      RegroupText(Padding(widths[..n], limit), field, rest);
      PaddingMembers(widths[..n], limit, field + rest);
      MemberOfField(Counter(n, limit), widths[n], rest);
      Regroup(MembersOf(widths[..n], limit), ("f" + Digits(Counter(n, limit)), Repeat('x', widths[n])), Members(rest));
    }
  }

  /** The padding of a body reads as members named by their numbers, and nothing else before the brace. */
  lemma PaddingReads(widths: seq<nat>, limit: nat)
    requires limit > 0
    ensures Members(Padding(widths, limit) + "}") == MembersOf(widths, limit)
  {
    PaddingMembers(widths, limit, "}");
    assert Member("}") == None;
  }

  function ParseDigits(s: string): int {
    if s == "" then 0 else 10 * ParseDigits(s[..|s| - 1]) + (s[|s| - 1] as int - '0' as int)
  }

  lemma {:induction false} DigitsReadBack(n: nat)
    ensures ParseDigits(Digits(n)) == n
  {
    if n >= 10 {
      DigitsReadBack(n / 10);
      assert Digits(n)[..|Digits(n)| - 1] == Digits(n / 10);
    } else {
      assert ParseDigits("") == 0;
    }
  }

  lemma {:induction false} CountsUp(n: nat, limit: nat)
    requires n < limit
    ensures Counter(n, limit) == n
  {
    if n > 0 {
      CountsUp(n - 1, limit);
    }
  }

  /** Before the counter wraps no two members share a name. */
  lemma NamesDiffer(i: nat, j: nat, limit: nat)
    requires i < j < limit
    ensures "f" + Digits(Counter(i, limit)) != "f" + Digits(Counter(j, limit))
  {
    CountsUp(i, limit);
    CountsUp(j, limit);
    DigitsReadBack(i);
    DigitsReadBack(j);
    assert ("f" + Digits(i))[1..] == Digits(i) && ("f" + Digits(j))[1..] == Digits(j);
  }
}
