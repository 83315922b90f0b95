/** Codes a person carries: bytes in Crockford's base32, grouped for reading, and taken back however they
    were typed. */
module HumanCode {
  type Byte = b: int | 0 <= b < 256 witness 0
  type Digit = d: int | 0 <= d < 32 witness 0

  /** Digits, then letters without I, L, O and U. */
  const ALPHABET := "0123456789ABCDEFGHJKMNPQRSTVWXYZ"

  const WORD := 0x1_0000_0000

  // ----- what an encoding is --------------------------------------------------------------------------

  /** The bytes as one big-endian number. */
  function Num(bytes: seq<Byte>): nat {
    if bytes == [] then 0 else Num(bytes[..|bytes| - 1]) * 256 + bytes[|bytes| - 1]
  }

  function DigitsNum(digits: seq<Digit>): nat {
    if digits == [] then 0 else DigitsNum(digits[..|digits| - 1]) * 32 + digits[|digits| - 1]
  }

  function Spelled(digits: seq<Digit>): (s: string)
    ensures |s| == |digits|
  {
    seq(|digits|, i requires 0 <= i < |digits| => ALPHABET[digits[i]])
  }

  /** As many digits as hold all the bits. */
  function Length(n: nat): nat {
    (8 * n + 4) / 5
  }

  /** The bits the last digit has to spare. */
  function Spare(n: nat): (bits: nat)
    ensures bits < 5
  {
    5 * Length(n) - 8 * n
  }

  function Pow2(k: nat): (p: nat)
    ensures p > 0
  {
    if k == 0 then 1 else 2 * Pow2(k - 1)
  }

  /** The grouping of some bytes' bits in fives, from the first, the last group filled up with zeroes. */
  ghost predicate Groups(bytes: seq<Byte>, digits: seq<Digit>) {
    |digits| == Length(|bytes|) && DigitsNum(digits) == Num(bytes) * Pow2(Spare(|bytes|))
  }

  /** A number in so many digits. */
  function ToDigits(v: nat, len: nat): (digits: seq<Digit>)
    ensures |digits| == len
    decreases len
  {
    if len == 0 then [] else ToDigits(v / 32, len - 1) + [v % 32]
  }

  /** The code of some bytes: the letters of that grouping. */
  function Encoded(bytes: seq<Byte>): string {
    Spelled(ToDigits(Num(bytes) * Pow2(Spare(|bytes|)), Length(|bytes|)))
  }

  // ----- there is one, and it loses nothing -----------------------------------------------------------

  lemma {:induction false} OneSpelling(a: seq<Digit>, b: seq<Digit>)
    requires |a| == |b| && DigitsNum(a) == DigitsNum(b)
    ensures a == b
    decreases |a|
  {
    if a != [] {
      OneSpelling(a[..|a| - 1], b[..|b| - 1]);
      assert a == a[..|a| - 1] + [a[|a| - 1]] && b == b[..|b| - 1] + [b[|b| - 1]];
    }
  }

  lemma {:induction false} OneNumber(a: seq<Byte>, b: seq<Byte>)
    requires |a| == |b| && Num(a) == Num(b)
    ensures a == b
    decreases |a|
  {
    if a != [] {
      OneNumber(a[..|a| - 1], b[..|b| - 1]);
      assert a == a[..|a| - 1] + [a[|a| - 1]] && b == b[..|b| - 1] + [b[|b| - 1]];
    }
  }

  /** The digit a letter of the alphabet stands for. */
  function ValueOf(c: char): int {
    if c <= '9' then c as int - '0' as int
    else
      c as int - 'A' as int + 10 - (if c > 'I' then 1 else 0) - (if c > 'L' then 1 else 0)
      - (if c > 'O' then 1 else 0) - (if c > 'U' then 1 else 0)
  }

  lemma {:induction false} AlphabetIsRead(d: Digit)
    ensures ValueOf(ALPHABET[d]) == d && InAlphabet(ALPHABET[d])
  {
  }

  /** The alphabet is the digits and then the letters, in order, without I, L, O and U. */
  lemma {:induction false} AlphabetAt(d: Digit)
    ensures ALPHABET[d] as int == if d < 10 then '0' as int + d
                                  else 'A' as int + d - 10 + (if d < 18 then 0 else if d < 20 then 1 else if d < 22 then 2 else if d < 27 then 3 else 4)
  {
  }

  predicate InAlphabet(c: char) {
    '0' <= c <= '9' || ('A' <= c <= 'Z' && c != 'I' && c != 'L' && c != 'O' && c != 'U')
  }

  lemma {:induction false} SpelledIsRead(a: seq<Digit>, b: seq<Digit>)
    requires Spelled(a) == Spelled(b)
    ensures a == b
  {
    assert |a| == |Spelled(a)| == |b|;
    forall i | 0 <= i < |a| ensures a[i] == b[i] {
      assert Spelled(a)[i] == Spelled(b)[i];
      AlphabetIsRead(a[i]);
      AlphabetIsRead(b[i]);
    }
  }

  lemma {:induction false} Cancel(a: nat, b: nat, p: nat)
    requires p > 0 && a * p == b * p
    ensures a == b
  {
  }

  // ----- the bit buffer -------------------------------------------------------------------------------

  lemma {:induction false} NonNegative(a: int, b: int)
    requires a >= 0 && b >= 0
    ensures a * b >= 0
  {
  }

  lemma {:induction false} StepUp(a: int, b: int, p: int)
    requires a < b && p > 0
    ensures a * p + p <= b * p
  {
    NonNegative(b - a - 1, p);
    assert (b - a - 1) * p == b * p - a * p - p;
  }

  lemma {:induction false} Divides(n: int, p: int, q: int, r: int)
    requires p > 0 && n == q * p + r && 0 <= r < p
    ensures n / p == q && n % p == r
  {
    var q' := n / p;
    assert n == q' * p + n % p;
    if q > q' {
      StepUp(q', q, p);
      assert false;
    } else if q < q' {
      StepUp(q, q', p);
      assert false;
    }
  }

  lemma {:induction false} Regroup(q: int, a: int, d: int, p: int, k: int)
    requires q == a * k + d
    ensures q * p == a * (p * k) + d * p
  {
  }

  lemma {:induction false} Below(d: int, p: int, r: int, k: int)
    requires 0 <= d < k && 0 <= r < p
    ensures 0 <= d * p + r < p * k
  {
    NonNegative(d, p);
    StepUp(d, k, p);
  }

  lemma {:induction false} PowersMultiply(a: nat, b: nat)
    ensures Pow2(a) * Pow2(b) == Pow2(a + b)
  {
    if a > 0 {
      PowersMultiply(a - 1, b);
    }
  }

  lemma {:induction false} ThirtyTwo()
    ensures Pow2(5) == 32 && Pow2(8) == 256 && Pow2(32) == WORD
  {
    assert Pow2(8) == 256;
    PowersMultiply(8, 8);
    PowersMultiply(16, 16);
  }

  // ----- the grouping is there, and is the code's ---------------------------------------------------

  lemma {:induction false} DigitsOfNum(digits: seq<Digit>)
    ensures ToDigits(DigitsNum(digits), |digits|) == digits
    decreases |digits|
  {
    if digits != [] {
      var init, d := digits[..|digits| - 1], digits[|digits| - 1];
      DigitsOfNum(init);
      assert DigitsNum(digits) / 32 == DigitsNum(init) && DigitsNum(digits) % 32 == d;
    }
  }

  lemma {:induction false} NumOfDigits(v: nat, len: nat)
    requires v < Pow2(5 * len)
    ensures DigitsNum(ToDigits(v, len)) == v
    decreases len
  {
    if len > 0 {
      ThirtyTwo();
      PowersMultiply(5 * (len - 1), 5);
      NumOfDigits(v / 32, len - 1);
      var digits := ToDigits(v, len);
      assert digits[..len - 1] == ToDigits(v / 32, len - 1);
    }
  }

  lemma {:induction false} NumBound(bytes: seq<Byte>)
    ensures Num(bytes) < Pow2(8 * |bytes|)
    decreases |bytes|
  {
    if bytes != [] {
      ThirtyTwo();
      NumBound(bytes[..|bytes| - 1]);
      PowersMultiply(8 * (|bytes| - 1), 8);
    }
  }

  lemma {:induction false} TimesBelow(a: nat, b: nat, p: nat)
    requires a < b && p > 0
    ensures a * p < b * p
  {
    StepUp(a, b, p);
  }

  /** The digits of a code are the grouping of its bytes. */
  lemma {:induction false} CodeGroups(bytes: seq<Byte>)
    ensures Groups(bytes, ToDigits(Num(bytes) * Pow2(Spare(|bytes|)), Length(|bytes|)))
  {
    var n, spare := 8 * |bytes|, Spare(|bytes|);
    NumBound(bytes);
    PowersMultiply(n, spare);
    TimesBelow(Num(bytes), Pow2(n), Pow2(spare));
    NumOfDigits(Num(bytes) * Pow2(spare), Length(|bytes|));
  }

  /** Two byte strings of one length never share a code. */
  lemma {:induction false} Injective(a: seq<Byte>, b: seq<Byte>)
    requires |a| == |b| && Encoded(a) == Encoded(b)
    ensures a == b
  {
    var spare, len := Spare(|a|), Length(|a|);
    CodeGroups(a);
    CodeGroups(b);
    SpelledIsRead(ToDigits(Num(a) * Pow2(spare), len), ToDigits(Num(b) * Pow2(spare), len));
    Cancel(Num(a), Num(b), Pow2(spare));
    OneNumber(a, b);
  }

  // ----- dividing in a word that drops its top ------------------------------------------------------

  /** Dividing by `p * k` leaves what dividing by `p`, then by `k`, leaves. */
  lemma {:induction false} DivideTwice(n: int, p: int, k: int)
    requires p > 0 && k > 0
    ensures p * k > 0 && n / (p * k) == n / p / k
  {
    var q, r := n / p, n % p;
    Below(q % k, p, r, k);
    Regroup(q, q / k, q % k, p, k);
    Divides(n, p * k, q / k, q % k * p + r);
  }

  /** Taking off multiples of `p * j` takes multiples of `j` off the quotient. */
  lemma {:induction false} DivideRest(n: int, p: int, j: int, h: int)
    requires p > 0
    ensures (n - h * (p * j)) / p == n / p - h * j
  {
    var q, r := n / p, n % p;
    Regroup(q, h, q - h * j, p, j);
    Divides(n - h * (p * j), p, q - h * j, r);
  }

  /** Five bits of a quotient, read from a word that has dropped the bits above it. */
  lemma {:induction false} FiveBits(n: nat, p: int, m: int)
    requires p > 0 && m > 0 && p * (32 * m) == WORD
    ensures n / p == n / p / 32 * 32 + n % WORD / p % 32
  {
    var h := n / WORD;
    DivideRest(n, p, 32 * m, h);
    assert n % WORD == n - h * (p * (32 * m));
    Divides(n / p - h * (32 * m), 32, n / p / 32 - h * m, n / p % 32) by {
      assert h * (32 * m) == h * m * 32;
    }
  }

  /** One digit off the top of the buffer continues the grouping. */
  lemma {:induction false} TakeDigit(n: nat, bits: nat)
    requires 5 <= bits <= 32
    ensures n / Pow2(bits - 5) == n / Pow2(bits) * 32 + n % WORD / Pow2(bits - 5) % 32
  {
    ThirtyTwo();
    PowersMultiply(bits - 5, 5);
    PowersMultiply(5, 32 - bits);
    PowersMultiply(bits - 5, 37 - bits);
    DivideTwice(n, Pow2(bits - 5), 32);
    FiveBits(n, Pow2(bits - 5), Pow2(32 - bits));
  }

  /** A word that has dropped the bits above it takes the next byte as the whole number would. */
  lemma {:induction false} NextWord(n: nat, b: Byte)
    ensures n % WORD * 256 % WORD + b == (n * 256 + b) % WORD
  {
    var h, g, e := n / WORD, n / (WORD / 256), n % (WORD / 256);
    Divides(n * 256 + b, WORD, g, e * 256 + b);
    Divides(n % WORD * 256, WORD, g - 256 * h, e * 256);
  }

  /** One byte more in the buffer leaves the digits taken so far what they were. */
  lemma {:induction false} AddByte(n: nat, b: Byte, bits: nat)
    ensures (n * 256 + b) / Pow2(bits + 8) == n / Pow2(bits)
    ensures n % WORD * 256 % WORD + b == (n * 256 + b) % WORD
  {
    ThirtyTwo();
    PowersMultiply(8, bits);
    DivideTwice(n * 256 + b, 256, Pow2(bits));
    NextWord(n, b);
  }

  lemma {:induction false} WordTimes(h: int, v: int, s: int)
    ensures v * s == (h * WORD + v) * s - h * s * (WORD / 32) * 32
  {
  }

  lemma {:induction false} FillAt(n: nat, p: int, s: int)
    requires p > 0 && s > 0 && p * s == 32
    ensures n / p * 32 + n % WORD * s % WORD % 32 == n * s
  {
    var q, r, h, v := n / p, n % p, n / WORD, n % WORD;
    Distribute(q, p, r, s);
    Below(r, s, 0, p);
    WordTimes(h, v, s);
    ShiftedRest(q, r * s, h * s * (WORD / 32), v * s);
  }

  lemma {:induction false} ShiftedRest(q: int, t: int, g: int, y: int)
    requires 0 <= t < 32 && y == q * 32 + t - g * 32
    ensures y % WORD % 32 == t
  {
  }

  lemma {:induction false} Distribute(q: int, p: int, r: int, s: int)
    ensures (q * p + r) * s == q * (p * s) + r * s
    ensures q * (p * s) == q * p * s
  {
  }

  /** What is left in the buffer fills the last digit from the top. */
  lemma {:induction false} FillLast(n: nat, bits: nat)
    requires 0 < bits < 5
    ensures n / Pow2(bits) * 32 + n % WORD * Pow2(5 - bits) % WORD % 32 == n * Pow2(5 - bits)
  {
    ThirtyTwo();
    PowersMultiply(bits, 5 - bits);
    FillAt(n, Pow2(bits), Pow2(5 - bits));
  }

  lemma {:induction false} SpelledOneMore(digits: seq<Digit>, d: Digit)
    ensures Spelled(digits + [d]) == Spelled(digits) + [ALPHABET[d]]
    ensures DigitsNum(digits + [d]) == DigitsNum(digits) * 32 + d
  {
  }

  /** What the buffer and the digits so far say of the number `n` taken in: the digits are what is above the
      `bits` left in the buffer, of which the word holds at least those. */
  ghost predicate Holds(n: nat, taken: nat, value: nat, bits: nat, out: string, digits: seq<Digit>) {
    5 * |digits| + bits == 8 * taken && out == Spelled(digits) && value == n % WORD && DigitsNum(digits) == n / Pow2(bits)
  }

  /** Whole digits off the top of the buffer. */
  method Drain(value: nat, held: nat, soFar: string, ghost given: seq<Digit>, ghost n: nat, ghost taken: nat)
    returns (bits: nat, out: string, ghost digits: seq<Digit>)
    requires held <= 12 && Holds(n, taken, value, held, soFar, given)
    ensures bits < 5 && Holds(n, taken, value, bits, out, digits)
  {
    bits, out, digits := held, soFar, given;
    while bits >= 5
      invariant bits <= 12 && Holds(n, taken, value, bits, out, digits)
    {
      var d := value / Pow2(bits - 5) % 32;
      TakeDigit(n, bits);
      SpelledOneMore(digits, d);
      out := out + [ALPHABET[d]];
      digits := digits + [d];
      bits := bits - 5;
    }
  }

  lemma {:induction false} HoldsOneByte(n: nat, taken: nat, value: nat, bits: nat, out: string, digits: seq<Digit>, b: Byte)
    requires Holds(n, taken, value, bits, out, digits)
    ensures Holds(n * 256 + b, taken + 1, value * 256 % WORD + b, bits + 8, out, digits)
  {
    AddByte(n, b, bits);
  }

  lemma {:induction false} HoldsAll(bytes: seq<Byte>, value: nat, bits: nat, out: string, digits: seq<Digit>)
    requires bits < 5 && Holds(Num(bytes), |bytes|, value, bits, out, digits)
    ensures bits == 0 ==> Groups(bytes, digits)
    ensures bits > 0 ==> var d := value * Pow2(5 - bits) % WORD % 32; Groups(bytes, digits + [d]) && out + [ALPHABET[d]] == Spelled(digits + [d])
  {
    if bits > 0 {
      var d := value * Pow2(5 - bits) % WORD % 32;
      FillLast(Num(bytes), bits);
      SpelledOneMore(digits, d);
      assert Spare(|bytes|) == 5 - bits;
    } else {
      assert Pow2(0) == 1;
    }
  }

  /** `encode`, its buffer a 32-bit word that is never masked. */
  method Encode(bytes: seq<Byte>) returns (out: string)
    ensures out == Encoded(bytes)
  {
    var bits: nat, value: nat := 0, 0;
    ghost var n: nat, digits: seq<Digit> := 0, [];
    out := "";
    for i := 0 to |bytes|
      invariant bits < 5 && n == Num(bytes[..i]) && Holds(n, i, value, bits, out, digits)
    {
      var b := bytes[i];
      assert bytes[..i + 1][..i] == bytes[..i];
      HoldsOneByte(n, i, value, bits, out, digits, b);
      n := n * 256 + b;
      value := value * 256 % WORD + b;
      bits, out, digits := Drain(value, bits + 8, out, digits, n, i + 1);
    }
    assert bytes[..|bytes|] == bytes;
    HoldsAll(bytes, value, bits, out, digits);
    if bits > 0 {
      var d := value * Pow2(5 - bits) % WORD % 32;
      out := out + [ALPHABET[d]];
      digits := digits + [d];
    }
    DigitsOfNum(digits);
  }

  /** The code of 16 bytes, in groups of four. */
  function Grouped(raw: string): string {
    if |raw| <= 4 then raw else raw[..4] + "-" + Grouped(raw[4..])
  }

  /** `newHumanCode`, of the 16 random bytes it is given: 26 characters, 32 with their dashes, which are
      normalised back to the code. */
  method NewHumanCode(secret: seq<Byte>) returns (code: string)
    requires |secret| == 16
    ensures code == Grouped(Encoded(secret)) && |Encoded(secret)| == 26 && |code| == 32
    ensures Normalise(code) == Encoded(secret)
    ensures forall i :: 0 <= i < |code| ==> if i % 5 == 4 then code[i] == '-' else code[i] != '-' && code[i] == Encoded(secret)[i - i / 5]
  {
    var raw := Encode(secret);
    code := Grouped(raw);
    ghost var digits := ToDigits(Num(secret) * Pow2(Spare(16)), Length(16));
    forall i | 0 <= i < |raw| ensures InAlphabet(raw[i]) {
      AlphabetIsRead(digits[i]);
    }
    GroupedIsARetyping(raw);
    NormaliseIffRetyping(code, raw);
    GroupedLength(raw);
    forall i | 0 <= i < |code| ensures if i % 5 == 4 then code[i] == '-' else code[i] != '-' && code[i] == raw[i - i / 5] {
      GroupedAt(raw, i);
    }
  }

  /** Every fifth character of a code shown is a dash, and the others are the code's. */
  lemma {:induction false} GroupedAt(raw: string, i: nat)
    requires raw != "" && i < |raw| + (|raw| - 1) / 4 && forall j :: 0 <= j < |raw| ==> InAlphabet(raw[j])
    ensures i < |Grouped(raw)|
    ensures if i % 5 == 4 then Grouped(raw)[i] == '-' else 0 <= i - i / 5 < |raw| && Grouped(raw)[i] == raw[i - i / 5] != '-'
    decreases |raw|
  {
    GroupedLength(raw);
    if |raw| > 4 && i >= 5 {
      GroupedAt(raw[4..], i - 5);
    }
  }

  lemma {:induction false} GroupedLength(raw: string)
    requires raw != ""
    ensures |Grouped(raw)| == |raw| + (|raw| - 1) / 4
    decreases |raw|
  {
    if |raw| > 4 {
      GroupedLength(raw[4..]);
    }
  }

  // ----- taking a code back ---------------------------------------------------------------------------

  /** Upper case, of any character of which a letter of the alphabet comes, some with a mark that stays with it. */
  function Upper(c: char): (u: string)
    ensures u != "" && (Separates(c) ==> u == [c]) && (!Separates(c) ==> forall i :: 0 <= i < |u| ==> !Separates(u[i]))
  {
    if 'a' <= c <= 'z' then [(c as int - 32) as char]
    else if c == '\U{0131}' then "I"
    else if c == '\U{017F}' then "S"
    else if c == '\U{00DF}' then "SS"
    else if c == '\U{0149}' then ['\U{02BC}', 'N']
    else if c == '\U{01F0}' then ['J', '\U{030C}']
    else if c == '\U{1E96}' then ['H', '\U{0331}']
    else if c == '\U{1E97}' then ['T', '\U{0308}']
    else if c == '\U{1E98}' then ['W', '\U{030A}']
    else if c == '\U{1E99}' then ['Y', '\U{030A}']
    else if c == '\U{1E9A}' then ['A', '\U{02BE}']
    else if c == '\U{FB00}' then "FF"
    else if c == '\U{FB01}' then "FI"
    else if c == '\U{FB02}' then "FL"
    else if c == '\U{FB03}' then "FFI"
    else if c == '\U{FB04}' then "FFL"
    else if c == '\U{FB05}' || c == '\U{FB06}' then "ST"
    else [c]
  }

  function Uppered(s: string): string {
    if s == "" then "" else Upper(s[0]) + Uppered(s[1..])
  }

  /** White space, as a regular expression's `\s` has it, or a dash. */
  predicate Separates(c: char) {
    var n := c as int;
    c == '-' || 9 <= n <= 13 || n == 0x20 || n == 0xA0 || n == 0x1680 || 0x2000 <= n <= 0x200A || n == 0x2028 || n == 0x2029
    || n == 0x202F || n == 0x205F || n == 0x3000 || n == 0xFEFF
  }

  function Unconfused(c: char): char {
    if c == 'I' || c == 'L' then '1' else if c == 'O' then '0' else if c == 'U' then 'V' else c
  }

  function Each(s: string, f: char -> char): (r: string)
    ensures |r| == |s|
  {
    seq(|s|, i requires 0 <= i < |s| => f(s[i]))
  }

  function Joined(s: string): string {
    if s == "" then "" else (if Separates(s[0]) then "" else [s[0]]) + Joined(s[1..])
  }

  /** `normaliseHumanCode`: one replacement after another. */
  function Normalise(typed: string): string {
    Each(Joined(Uppered(typed)), Unconfused)
  }

  /** A letter of a code, as somebody may have read it. */
  predicate LooksLike(u: char, r: char) {
    || u == r
    || (r == '1' && (u == 'I' || u == 'L'))
    || (r == '0' && u == 'O')
    || (r == 'V' && u == 'U')
  }

  predicate Spells(u: string, raw: string) {
    |u| <= |raw| && forall i :: 0 <= i < |u| ==> LooksLike(u[i], raw[i])
  }

  /** `typed` is `raw` as somebody may have typed it: dashes and spaces anywhere, either case, characters that are
      one letter or several in upper case, and letters the alphabet leaves out for those they are taken for. */
  predicate Retypes(typed: string, raw: string) {
    if typed == "" then raw == ""
    else if Separates(typed[0]) then Retypes(typed[1..], raw)
    else Spells(Upper(typed[0]), raw) && Retypes(typed[1..], raw[|Upper(typed[0])|..])
  }

  /** A letter of a code as it may be typed on a keyboard: either case, and those the alphabet leaves out. */
  predicate TypedFor(t: char, r: char) {
    || t == r
    || ('a' <= t <= 'z' && 'A' <= r <= 'Z' && t as int - 'a' as int == r as int - 'A' as int)
    || (r == '0' && (t == 'O' || t == 'o'))
    || (r == '1' && (t == 'I' || t == 'i' || t == 'L' || t == 'l'))
    || (r == 'V' && (t == 'U' || t == 'u'))
  }

  predicate Spacing(c: char) {
    c == '-' || c == ' ' || c == '\t' || c == '\n' || c == '\r' || c == '\U{000B}' || c == '\U{000C}'
  }

  /** A code typed on a keyboard, with dashes and white space anywhere. */
  predicate TypedAs(typed: string, raw: string) {
    if typed == "" then raw == ""
    else if Spacing(typed[0]) then TypedAs(typed[1..], raw)
    else raw != "" && TypedFor(typed[0], raw[0]) && TypedAs(typed[1..], raw[1..])
  }

  /** One character of a keyboard, as it is read. */
  lemma {:induction false} KeyIsRead(c: char)
    requires c <= '\U{007F}'
    ensures |Upper(c)| == 1 && (Separates(c) <==> Spacing(c))
    ensures forall r :: InAlphabet(r) ==> (Unconfused(Upper(c)[0]) == r <==> TypedFor(c, r))
  {
  }

  /** What is typed on a keyboard is read as a code exactly when it is that code in either case, with the letters
      the alphabet leaves out for those they are taken for, and dashes and white space anywhere. */
  lemma {:induction false} ReadsKeyboards(typed: string, raw: string)
    requires (forall i :: 0 <= i < |typed| ==> typed[i] <= '\U{007F}') && forall i :: 0 <= i < |raw| ==> InAlphabet(raw[i])
    ensures Normalise(typed) == raw <==> TypedAs(typed, raw)
    decreases |typed|
  {
    hide Upper, Normalise, Separates, Spacing, TypedFor, InAlphabet, Unconfused;
    if typed == "" {
      NothingTyped();
    } else {
      NormaliseStep(typed);
      KeyIsRead(typed[0]);
      if Separates(typed[0]) {
        ReadsKeyboards(typed[1..], raw);
      } else {
        var head, rest := Each(Upper(typed[0]), Unconfused), Normalise(typed[1..]);
        assert head == [Unconfused(Upper(typed[0])[0])];
        if raw != "" {
          ReadsKeyboards(typed[1..], raw[1..]);
          assert head + rest == raw <==> head[0] == raw[0] && rest == raw[1..];
        }
      }
    }
  }

  lemma {:induction false} InTwo(a: string, b: string, c: string)
    ensures a + (b + c) == (a + b) + c
  {
  }

  lemma {:induction false} JoinedInTwo(a: string, b: string)
    ensures Joined(a + b) == Joined(a) + Joined(b)
    decreases |a|
  {
    hide Separates;
    if a == "" {
      assert a + b == b;
    } else {
      JoinedInTwo(a[1..], b);
      assert (a + b)[1..] == a[1..] + b && (a + b)[0] == a[0];
      var head := if Separates(a[0]) then "" else [a[0]];
      InTwo(head, Joined(a[1..]), Joined(b));
    }
  }

  lemma {:induction false} NothingToJoin(u: string)
    requires forall i :: 0 <= i < |u| ==> !Separates(u[i])
    ensures Joined(u) == u
    decreases |u|
  {
    if u != "" {
      NothingToJoin(u[1..]);
    }
  }

  lemma {:induction false} NormaliseStep(typed: string)
    requires typed != ""
    ensures Normalise(typed) == (if Separates(typed[0]) then "" else Each(Upper(typed[0]), Unconfused)) + Normalise(typed[1..])
  {
    hide Upper;
    var u, rest := Upper(typed[0]), Uppered(typed[1..]);
    JoinedInTwo(u, rest);
    if !Separates(typed[0]) {
      NothingToJoin(u);
      assert Each(u + Joined(rest), Unconfused) == Each(u, Unconfused) + Each(Joined(rest), Unconfused);
    } else {
      assert Joined(u) == "";
    }
  }

  lemma {:induction false} SpellsIffRead(u: string, raw: string)
    requires forall i :: 0 <= i < |raw| ==> InAlphabet(raw[i])
    ensures Spells(u, raw) <==> Each(u, Unconfused) <= raw
  {
    if |u| <= |raw| {
      assert forall i :: 0 <= i < |u| ==> (LooksLike(u[i], raw[i]) <==> Unconfused(u[i]) == raw[i]);
      assert Each(u, Unconfused) == raw[..|u|] <==> forall i :: 0 <= i < |u| ==> Unconfused(u[i]) == raw[i];
    }
  }

  /** What is typed normalises to a code exactly when it is a retyping of it. */
  lemma {:induction false} NormaliseIffRetyping(typed: string, raw: string)
    requires forall i :: 0 <= i < |raw| ==> InAlphabet(raw[i])
    ensures Normalise(typed) == raw <==> Retypes(typed, raw)
    decreases |typed|
  {
    hide Upper, Normalise, Spells, Separates, InAlphabet;
    if typed == "" {
      assert Normalise("") == "" by {
        NothingTyped();
      }
    } else {
      NormaliseStep(typed);
      var u := Upper(typed[0]);
      if Separates(typed[0]) {
        NormaliseIffRetyping(typed[1..], raw);
      } else {
        SpellsIffRead(u, raw);
        var head, rest := Each(u, Unconfused), Normalise(typed[1..]);
        if head <= raw {
          NormaliseIffRetyping(typed[1..], raw[|u|..]);
          assert head + rest == raw <==> rest == raw[|u|..];
        }
      }
    }
  }

  lemma {:induction false} NothingTyped()
    ensures Normalise("") == ""
  {
  }

  /** Nothing a normalised code holds would be changed by normalising it again. */
  predicate Plain(c: char) {
    !Separates(c) && Upper(c) == [c] && Unconfused(c) == c
  }

  lemma {:induction false} ReadIsPlain(c: char, i: nat)
    requires !Separates(c) && i < |Upper(c)|
    ensures Plain(Unconfused(Upper(c)[i]))
  {
  }

  lemma {:induction false} Settled(typed: string, i: nat)
    requires i < |Normalise(typed)|
    ensures Plain(Normalise(typed)[i])
    decreases |typed|
  {
    hide Plain, Upper;
    if typed != "" {
      NormaliseStep(typed);
      var u := Upper(typed[0]);
      if Separates(typed[0]) {
        Settled(typed[1..], i);
      } else if i < |u| {
        ReadIsPlain(typed[0], i);
      } else {
        Settled(typed[1..], i - |u|);
      }
    }
  }

  lemma {:induction false} NothingToDo(s: string)
    requires forall i :: 0 <= i < |s| ==> Plain(s[i])
    ensures Normalise(s) == s
    decreases |s|
  {
    hide Upper;
    if s != "" {
      NormaliseStep(s);
      NothingToDo(s[1..]);
      assert Plain(s[0]);
    }
  }

  lemma {:induction false} Idempotent(typed: string)
    ensures Normalise(Normalise(typed)) == Normalise(typed)
  {
    hide Plain, Normalise;
    var s := Normalise(typed);
    forall i | 0 <= i < |s| ensures Plain(s[i]) {
      Settled(typed, i);
    }
    NothingToDo(s);
  }

  lemma {:induction false} LetterIsItself(c: char)
    requires InAlphabet(c)
    ensures Upper(c) == [c] && !Separates(c)
  {
  }

  lemma {:induction false} LetterSpells(c: char, raw: string)
    requires raw != "" && raw[0] == c
    ensures Spells([c], raw)
  {
  }

  lemma {:induction false} ShownIsARetyping(raw: string)
    requires forall i :: 0 <= i < |raw| ==> InAlphabet(raw[i])
    ensures Retypes(raw, raw)
    decreases |raw|
  {
    if raw != "" {
      LetterIsItself(raw[0]);
      ShownIsARetyping(raw[1..]);
    }
  }

  lemma {:induction false} TypedAfter(a: string, b: string, rest: string)
    requires forall i :: 0 <= i < |a| ==> InAlphabet(a[i])
    requires Retypes(b, rest)
    ensures Retypes(a + b, a + rest)
    decreases |a|
  {
    hide Upper, Separates, InAlphabet, Spells;
    if a == "" {
      assert a + b == b && a + rest == rest;
    } else {
      LetterIsItself(a[0]);
      TypedAfter(a[1..], b, rest);
      LetterSpells(a[0], a + rest);
      assert (a + b)[1..] == a[1..] + b && (a + rest)[1..] == a[1..] + rest;
    }
  }

  /** A code as it is shown is a retyping of it. */
  lemma {:induction false} GroupedIsARetyping(raw: string)
    requires forall i :: 0 <= i < |raw| ==> InAlphabet(raw[i])
    ensures Retypes(Grouped(raw), raw)
    decreases |raw|
  {
    hide Upper, InAlphabet, Spells;
    if |raw| <= 4 {
      ShownIsARetyping(raw);
    } else {
      GroupedIsARetyping(raw[4..]);
      var shown := "-" + Grouped(raw[4..]);
      assert shown[1..] == Grouped(raw[4..]) && Separates(shown[0]);
      hide Separates;
      TypedAfter(raw[..4], shown, raw[4..]);
      assert raw == raw[..4] + raw[4..] && Grouped(raw) == raw[..4] + shown;
    }
  }
}
