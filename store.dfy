/**
 * What the loaders read from the key-value store: the news keys and the
 * JSON envelope stored under each, reduced to the shapes the loaders
 * distinguish.
 */
module Store {
  import opened Wrappers
  import opened Text
  import opened Calendar
  import opened Sorting

  /** The fields of a record dict that the pipeline reads; an absent `title` or `summary` reads as "". */
  datatype Fields = Fields(
    title: string,
    summary: string,
    source: Option<string>,
    published: Option<string>,
    category: Option<string>,
    country: Option<string>)

  /** The `{}` that `news_item.get('value', {})` falls back to. */
  const NoFields := Fields("", "", None, None, None, None)

  /** The member `value` of a stored JSON object. */
  datatype Inner = Absent | NotADict | Dict(fields: Fields)

  /**
   * What the pipelined GET returns for a key: nothing or the empty string
   * (`Blank`), text that is not JSON, JSON that is not an object, or an
   * object envelope.
   */
  datatype Value = Blank | Malformed | NotAnObject | Envelope(inner: Inner)

  /** `GET key`: a key that is gone by the time it is read yields `None`. */
  function Lookup(store: map<string, Value>, key: string): Value {
    if key in store then store[key] else Blank
  }

  /**
   * The record dict the loaders go on with, or None where they skip the
   * key: `if not value`, a `json.loads` error, `.get` on a non-object, and
   * the assignment of `redis_key` into a `value` that is not a dict.
   */
  function RecordFields(v: Value): (r: Option<Fields>)
    ensures r.Some? <==> v.Envelope? && !v.inner.NotADict?
  {
    match v
    case Envelope(Dict(f)) => Some(f)
    case Envelope(Absent) => Some(NoFields)
    case _ => None
  }

  predicate AllDigits(s: string) {
    forall i :: 0 <= i < |s| ==> IsDigit(s[i])
  }

  /**
   * `re.compile(r'^news-(\\d{8})-(\\d{3})$').match(key)`: Python's `$` also
   * matches just before a final newline.  The eight date digits are
   * checked as the year, month and day parts they are read as.
   */
  predicate KeyMatches(k: string) {
    && (|k| == 17 || (|k| == 18 && k[17] == '\n'))
    && k[..5] == "news-"
    && AllDigits(k[5..9]) && AllDigits(k[9..11]) && AllDigits(k[11..13])
    && k[13] == '-'
    && AllDigits(k[14..17])
  }

  /** The keys of a scan that match the key pattern, in scan order. */
  function Matched(scanned: seq<string>): (keys: seq<string>)
    ensures forall k | k in keys :: KeyMatches(k)
    ensures forall k :: k in keys <==> k in scanned && KeyMatches(k)
  {
    var keys := Filter(scanned, KeyMatches);
    forall k ensures k in keys <==> k in scanned && KeyMatches(k) {
      FilterMembers(scanned, KeyMatches, k);
    }
    keys
  }

  /** One more scanned key is kept, at the end, exactly when it matches: the keys stay in scan order. */
  lemma MatchedSnoc(scanned: seq<string>, k: string)
    ensures Matched(scanned + [k]) == Matched(scanned) + if KeyMatches(k) then [k] else []
  {
    FilterSnoc(scanned, k, KeyMatches);
  }

  function Digit(c: char): nat
    requires IsDigit(c)
  {
    c as int - '0' as int
  }

  /** The value of a decimal numeral, as `int()` reads it. */
  function Number(s: string): nat
    requires AllDigits(s)
  {
    if s == [] then 0 else Number(s[..|s| - 1]) * 10 + Digit(s[|s| - 1])
  }

  function KeyYear(k: string): nat
    requires KeyMatches(k)
  {
    Number(k[5..9])
  }

  function KeyMonth(k: string): nat
    requires KeyMatches(k)
  {
    Number(k[9..11])
  }

  function KeyDay(k: string): nat
    requires KeyMatches(k)
  {
    Number(k[11..13])
  }

  function KeySequence(k: string): nat
    requires KeyMatches(k)
  {
    Number(k[14..17])
  }

  /**
   * `datetime.strptime(m.group(1), "%Y%m%d")` succeeds: on eight digits the
   * only full parse is four year, two month and two day digits, and the
   * date must exist.
   */
  predicate KeyDateValid(k: string)
    requires KeyMatches(k)
  {
    ValidDate(KeyYear(k), KeyMonth(k), KeyDay(k))
  }

  /** The key's date at midnight UTC. */
  function KeyInstant(k: string): nat
    requires KeyMatches(k) && KeyDateValid(k)
  {
    Midnight(KeyYear(k), KeyMonth(k), KeyDay(k))
  }

  function Pow10(w: nat): nat {
    if w == 0 then 1 else 10 * Pow10(w - 1)
  }

  /** The last `width` decimal digits of `n`, zero-padded (`f"{n:0{width}d}"` for `n < 10^width`). */
  function Digits(n: nat, width: nat): (s: string)
    ensures |s| == width && AllDigits(s)
  {
    if width == 0 then [] else Digits(n / 10, width - 1) + [('0' as int + n % 10) as char]
  }

  lemma {:induction false} NumberDigits(n: nat, width: nat)
    requires n < Pow10(width)
    ensures Number(Digits(n, width)) == n
  {
    if width > 0 {
      var s := Digits(n, width);
      assert s[..|s| - 1] == Digits(n / 10, width - 1);
      NumberDigits(n / 10, width - 1);
    }
  }

  lemma {:induction false} DigitsNumber(s: string)
    requires AllDigits(s)
    ensures Number(s) < Pow10(|s|)
    ensures Digits(Number(s), |s|) == s
  {
    if s != [] {
      var init := s[..|s| - 1];
      DigitsNumber(init);
      assert Number(s) / 10 == Number(init);
      assert s == init + [s[|s| - 1]];
    }
  }

  /** The key the store uses for sequence number `q` of the date `y-m-d`. */
  function MakeKey(y: nat, m: nat, d: nat, q: nat): string {
    "news-" + Digits(y, 4) + Digits(m, 2) + Digits(d, 2) + "-" + Digits(q, 3)
  }

  /** Every key built from a date and a sequence number matches, and reads back as that date and number. */
  lemma MakeKeyMatches(y: nat, m: nat, d: nat, q: nat)
    requires y < 10000 && m < 100 && d < 100 && q < 1000
    ensures KeyMatches(MakeKey(y, m, d, q))
    ensures KeyYear(MakeKey(y, m, d, q)) == y && KeyMonth(MakeKey(y, m, d, q)) == m
    ensures KeyDay(MakeKey(y, m, d, q)) == d && KeySequence(MakeKey(y, m, d, q)) == q
  {
    var k := MakeKey(y, m, d, q);
    assert Pow10(4) == 10000 && Pow10(3) == 1000 && Pow10(2) == 100;
    assert k[5..9] == Digits(y, 4) && k[9..11] == Digits(m, 2) && k[11..13] == Digits(d, 2);
    assert k[14..17] == Digits(q, 3);
    NumberDigits(y, 4);
    NumberDigits(m, 2);
    NumberDigits(d, 2);
    NumberDigits(q, 3);
  }

  /** Conversely, every key that matches without a trailing newline is built that way. */
  lemma KeyIsMade(k: string)
    requires KeyMatches(k) && |k| == 17
    ensures k == MakeKey(KeyYear(k), KeyMonth(k), KeyDay(k), KeySequence(k))
  {
    DigitsNumber(k[5..9]);
    DigitsNumber(k[9..11]);
    DigitsNumber(k[11..13]);
    DigitsNumber(k[14..17]);
    assert k == k[..5] + k[5..9] + k[9..11] + k[11..13] + [k[13]] + k[14..17];
  }
}
