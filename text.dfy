/** String helpers shared by the models: the part of Go's `strings` package
 *  and of Python's `str` methods that the driver and its scripts use.
 *  Whitespace is the ASCII set (space, tab, newline, carriage return,
 *  vertical tab, form feed). */
module Text {

  datatype Option<T> = None | Some(value: T)

  datatype Result<T, E> = Ok(value: T) | Err(error: E)

  predicate IsSpace(c: char) {
    c == ' ' || c == '\t' || c == '\n' || c == '\r' || c == '\U{0B}' || c == '\U{0C}'
  }

  /** A non-empty run of non-space characters, as produced by Fields. */
  predicate Word(w: string) {
    w != [] && forall k :: 0 <= k < |w| ==> !IsSpace(w[k])
  }

  predicate Blank(s: string) {
    forall k :: 0 <= k < |s| ==> IsSpace(s[k])
  }

  // ---------------------------------------------------------------------
  // Searching

  /** t occurs in s at offset i. */
  predicate OccursAt(s: string, t: string, i: int) {
    0 <= i && i + |t| <= |s| && s[i..i + |t|] == t
  }

  /** The first offset at or after i where t occurs in s, or -1. */
  function IndexFrom(s: string, t: string, i: nat): (r: int)
    ensures r == -1 || (i <= r && OccursAt(s, t, r))
    ensures forall j :: i <= j && (r == -1 || j < r) ==> !OccursAt(s, t, j)
    decreases |s| - i
  {
    if i + |t| > |s| then -1
    else if s[i..i + |t|] == t then i
    else IndexFrom(s, t, i + 1)
  }

  /** strings.Index: the first offset of t in s, or -1. */
  function Index(s: string, t: string): (r: int)
    ensures r == -1 || OccursAt(s, t, r)
    ensures forall j :: 0 <= j && (r == -1 || j < r) ==> !OccursAt(s, t, j)
  {
    IndexFrom(s, t, 0)
  }

  /** Nothing before the first occurrence of t contains t. */
  lemma NoneBeforeIndex(s: string, t: string)
    requires t != [] && Index(s, t) >= 0
    ensures !Contains(s[..Index(s, t)], t)
  {
    var i := Index(s, t);
    if Contains(s[..i], t) {
      var j := Index(s[..i], t);
      assert OccursAt(s[..i], t, j);
      assert s[..i][j..j + |t|] == s[j..j + |t|];
      assert OccursAt(s, t, j);
      assert false;
    }
  }

  /** strings.Contains, and Python's `t in s`. */
  predicate Contains(s: string, t: string) {
    Index(s, t) >= 0
  }

  lemma ContainsIff(s: string, t: string)
    ensures Contains(s, t) <==> exists i :: OccursAt(s, t, i)
  {
  }

  lemma OccursContains(s: string, t: string, i: int)
    requires OccursAt(s, t, i)
    ensures Contains(s, t)
  {
  }

  lemma ContainsAppend(a: string, b: string, t: string)
    ensures Contains(a, t) ==> Contains(a + b, t)
    ensures Contains(b, t) ==> Contains(a + b, t)
  {
    if Contains(a, t) {
      var i := Index(a, t);
      assert (a + b)[i..i + |t|] == a[i..i + |t|];
      OccursContains(a + b, t, i);
    }
    if Contains(b, t) {
      var i := Index(b, t);
      assert (a + b)[|a| + i..|a| + i + |t|] == b[i..i + |t|];
      OccursContains(a + b, t, |a| + i);
    }
  }

  /** Appending a character that t does not hold creates no occurrence of t. */
  lemma ContainsSnoc(s: string, c: char, t: string)
    requires c !in t
    ensures Contains(s + [c], t) <==> Contains(s, t)
  {
    ContainsAppend(s, [c], t);
    if Contains(s + [c], t) {
      var i := Index(s + [c], t);
      if |t| == 0 {
        OccursContains(s, t, 0);
      } else {
        assert (s + [c])[i + |t| - 1] == t[|t| - 1];
        assert i + |t| <= |s|;
        assert s[i..i + |t|] == (s + [c])[i..i + |t|];
        OccursContains(s, t, i);
      }
    }
  }

  /** A string holding a non-space character of t is not blank. */
  lemma ContainsNotBlank(s: string, t: string, k: nat)
    requires Contains(s, t) && k < |t| && !IsSpace(t[k])
    ensures !Blank(s)
  {
    var i := Index(s, t);
    assert s[i + k] == t[k];
  }

  predicate HasPrefix(s: string, p: string) {
    |p| <= |s| && s[..|p|] == p
  }

  predicate HasSuffix(s: string, p: string) {
    |p| <= |s| && s[|s| - |p|..] == p
  }

  // ---------------------------------------------------------------------
  // Whitespace

  /** Python str.lstrip() and Go strings.TrimLeft(s, whitespace). */
  function LStrip(s: string): (r: string)
    ensures |r| <= |s| && r == s[|s| - |r|..]
    ensures r == [] || !IsSpace(r[0])
    ensures Blank(s[..|s| - |r|])
  {
    if s != [] && IsSpace(s[0]) then LStrip(s[1..]) else s
  }

  function RStrip(s: string): (r: string)
    ensures |r| <= |s| && r == s[..|r|]
    ensures r == [] || !IsSpace(r[|r| - 1])
    ensures Blank(s[|r|..])
  {
    if s != [] && IsSpace(s[|s| - 1]) then RStrip(s[..|s| - 1]) else s
  }

  /** strings.TrimSpace. */
  function TrimSpace(s: string): string {
    RStrip(LStrip(s))
  }

  /** Length of the leading run of non-space characters. */
  function WordLen(s: string): (n: nat)
    ensures n <= |s|
    ensures forall k :: 0 <= k < n ==> !IsSpace(s[k])
    ensures n < |s| ==> IsSpace(s[n])
  {
    if s == [] || IsSpace(s[0]) then 0 else 1 + WordLen(s[1..])
  }

  /** strings.Fields and Python's str.split(): the maximal non-space runs. */
  function Fields(s: string): (r: seq<string>)
    ensures forall k :: 0 <= k < |r| ==> Word(r[k])
    decreases |s|
  {
    if s == [] then []
    else if IsSpace(s[0]) then Fields(s[1..])
    else
      var n := WordLen(s);
      [s[..n]] + Fields(s[n..])
  }

  lemma {:induction false} FieldsBlank(s: string)
    ensures Fields(s) == [] <==> Blank(s)
    decreases |s|
  {
    if s != [] {
      FieldsBlank(s[1..]);
      if IsSpace(s[0]) {
        assert Blank(s) <==> Blank(s[1..]) by {
          if Blank(s[1..]) {
            forall k | 0 <= k < |s| ensures IsSpace(s[k]) {
              if k > 0 { assert s[k] == s[1..][k - 1]; }
            }
          }
        }
      }
    }
  }

  /** Leading white space does not change the fields. */
  lemma {:induction false} FieldsAfterBlank(sp: string, s: string)
    requires Blank(sp)
    ensures Fields(sp + s) == Fields(s)
    decreases |sp|
  {
    if sp != [] {
      assert (sp + s)[0] == sp[0] && (sp + s)[1..] == sp[1..] + s;
      FieldsAfterBlank(sp[1..], s);
    } else {
      assert sp + s == s;
    }
  }

  /** A word followed by white space or nothing is the first field. */
  lemma WordFirst(w: string, rest: string)
    requires Word(w) && (rest == [] || IsSpace(rest[0]))
    ensures Fields(w + rest) == [w] + Fields(rest)
  {
    WordLenOf(w, rest);
    assert (w + rest)[..|w|] == w && (w + rest)[|w|..] == rest;
  }

  lemma {:induction false} WordLenOf(w: string, rest: string)
    requires forall k :: 0 <= k < |w| ==> !IsSpace(w[k])
    requires rest == [] || IsSpace(rest[0])
    ensures WordLen(w + rest) == |w|
    decreases |w|
  {
    if w != [] {
      assert (w + rest)[1..] == w[1..] + rest;
      WordLenOf(w[1..], rest);
    } else {
      assert w + rest == rest;
    }
  }

  /** Each part right-aligned in a field of width w ("%<w>s" repeated),
   *  concatenated. */
  function Padded(parts: seq<string>, w: nat): string
    decreases |parts|
  {
    if parts == [] then "" else PadLeft(parts[0], w) + Padded(parts[1..], w)
  }

  /** Words shorter than the width read back as the fields of their
   *  padded concatenation. */
  lemma {:induction false} PaddedFields(parts: seq<string>, w: nat)
    requires forall k :: 0 <= k < |parts| ==> Word(parts[k]) && |parts[k]| < w
    ensures Fields(Padded(parts, w)) == parts
    decreases |parts|
  {
    if parts != [] {
      var rest := Padded(parts[1..], w);
      PaddedFields(parts[1..], w);
      if parts[1..] != [] {
        PaddedStart(parts[1..], w);
      }
      PadLeftFields(parts[0], rest, w);
      assert [parts[0]] + parts[1..] == parts;
    }
  }

  /** A padded part shorter than the width starts with a space. */
  lemma PaddedStart(parts: seq<string>, w: nat)
    requires parts != [] && |parts[0]| < w
    ensures Padded(parts, w) != [] && Padded(parts, w)[0] == ' '
  {
    var q := parts[0];
    assert Padded(parts, w) == Spaces(w - |q|) + q + Padded(parts[1..], w);
  }

  /** A word padded to the width and followed by white space or nothing
   *  is the first field. */
  lemma PadLeftFields(p: string, rest: string, w: nat)
    requires Word(p) && |p| < w && (rest == [] || IsSpace(rest[0]))
    ensures Fields(PadLeft(p, w) + rest) == [p] + Fields(rest)
  {
    var sp := Spaces(w - |p|);
    assert PadLeft(p, w) + rest == sp + (p + rest);
    FieldsAfterBlank(sp, p + rest);
    WordFirst(p, rest);
  }

  /** Padding one more part appends its padded form. */
  lemma {:induction false} PaddedSnoc(parts: seq<string>, x: string, w: nat)
    ensures Padded(parts + [x], w) == Padded(parts, w) + PadLeft(x, w)
    decreases |parts|
  {
    if parts == [] {
      assert [x][1..] == [];
    } else {
      assert (parts + [x])[1..] == parts[1..] + [x];
      PaddedSnoc(parts[1..], x, w);
    }
  }

  /** Parts no wider than w take exactly w characters each. */
  lemma {:induction false} PaddedLength(parts: seq<string>, w: nat)
    requires forall k :: 0 <= k < |parts| ==> |parts[k]| <= w
    ensures |Padded(parts, w)| == w * |parts|
    decreases |parts|
  {
    if parts != [] {
      PaddedLength(parts[1..], w);
      assert Padded(parts, w) == PadLeft(parts[0], w) + Padded(parts[1..], w);
      MulSucc(w, |parts| - 1);
    }
  }

  /** A line that holds a non-space character of t has at least one field. */
  lemma ContainsFields(s: string, t: string, k: nat)
    requires Contains(s, t) && k < |t| && !IsSpace(t[k])
    ensures Fields(s) != []
  {
    ContainsNotBlank(s, t, k);
    FieldsBlank(s);
  }

  // ---------------------------------------------------------------------
  // Splitting and joining

  /** f applied to each element, in order. */
  function Map<A, B>(f: A -> B, xs: seq<A>): (r: seq<B>)
    ensures |r| == |xs| && forall t :: 0 <= t < |xs| ==> r[t] == f(xs[t])
    decreases |xs|
  {
    if xs == [] then [] else Map(f, xs[..|xs| - 1]) + [f(xs[|xs| - 1])]
  }

  lemma MapSnoc<A, B>(f: A -> B, xs: seq<A>, i: int)
    requires 0 <= i < |xs|
    ensures Map(f, xs[..i + 1]) == Map(f, xs[..i]) + [f(xs[i])]
  {
    assert xs[..i + 1][..i] == xs[..i];
  }

  lemma MapCons<A, B>(f: A -> B, x: A, xs: seq<A>)
    ensures Map(f, [x] + xs) == [f(x)] + Map(f, xs)
  {
  }

  lemma MapAppend<A, B>(f: A -> B, xs: seq<A>, ys: seq<A>)
    ensures Map(f, xs + ys) == Map(f, xs) + Map(f, ys)
  {
  }

  /** strings.Join. */
  function Join(parts: seq<string>, sep: string): string
    decreases |parts|
  {
    if parts == [] then ""
    else if |parts| == 1 then parts[0]
    else parts[0] + sep + Join(parts[1..], sep)
  }

  lemma {:induction false} JoinSnoc(parts: seq<string>, x: string, sep: string)
    requires parts != []
    ensures Join(parts + [x], sep) == Join(parts, sep) + sep + x
    decreases |parts|
  {
    if |parts| == 1 {
      assert (parts + [x])[1..] == [x];
    } else {
      JoinSnoc(parts[1..], x, sep);
      assert (parts + [x])[1..] == parts[1..] + [x];
    }
  }

  /** strings.Split with a non-empty separator. */
  function Split(s: string, sep: string): (r: seq<string>)
    requires sep != ""
    ensures |r| >= 1
    decreases |s|
  {
    var i := Index(s, sep);
    if i < 0 then [s]
    else [s[..i]] + Split(s[i + |sep|..], sep)
  }

  lemma {:induction false} JoinSplit(s: string, sep: string)
    requires sep != ""
    ensures Join(Split(s, sep), sep) == s
    decreases |s|
  {
    var i := Index(s, sep);
    if i >= 0 {
      var head, rest := s[..i], s[i + |sep|..];
      JoinSplit(rest, sep);
      SplitAtIndex(s, sep);
      JoinCons(head, Split(rest, sep), sep);
    }
  }

  /** Where sep first occurs, Split takes the text before it and goes on
   *  after it. */
  lemma SplitAtIndex(s: string, sep: string)
    requires sep != "" && Index(s, sep) >= 0
    ensures var i := Index(s, sep);
      Split(s, sep) == [s[..i]] + Split(s[i + |sep|..], sep) &&
      s == s[..i] + sep + s[i + |sep|..]
  {
    var i := Index(s, sep);
    assert s[i..i + |sep|] == sep;
    assert s == s[..i] + s[i..i + |sep|] + s[i + |sep|..];
  }

  /** Joining starts with the first part. */
  lemma JoinFirst(parts: seq<string>, sep: string)
    requires parts != [] && parts[0] != []
    ensures Join(parts, sep) != [] && Join(parts, sep)[0] == parts[0][0]
  {
  }

  lemma Assoc<T>(a: seq<T>, b: seq<T>, c: seq<T>)
    ensures a + (b + c) == a + b + c
  {
  }

  lemma JoinCons(a: string, tail: seq<string>, sep: string)
    requires tail != []
    ensures Join([a] + tail, sep) == a + sep + Join(tail, sep)
  {
    assert ([a] + tail)[1..] == tail;
  }

  /** Concatenation of a sequence of strings. */
  function Concat(parts: seq<string>): string
    decreases |parts|
  {
    if parts == [] then "" else Concat(parts[..|parts| - 1]) + parts[|parts| - 1]
  }

  /** Joining two non-empty lists puts one separator between their joins. */
  lemma {:induction false} JoinAppend(xs: seq<string>, ys: seq<string>, sep: string)
    requires xs != [] && ys != []
    ensures Join(xs + ys, sep) == Join(xs, sep) + sep + Join(ys, sep)
    decreases |xs|
  {
    if |xs| == 1 {
      assert xs + ys == [xs[0]] + ys;
      JoinCons(xs[0], ys, sep);
    } else {
      JoinAppend(xs[1..], ys, sep);
      assert xs + ys == [xs[0]] + (xs[1..] + ys);
      JoinCons(xs[0], xs[1..] + ys, sep);
      JoinCons(xs[0], xs[1..], sep);
      assert [xs[0]] + xs[1..] == xs;
    }
  }

  /** Each part followed by "\n", concatenated. */
  function Lines(parts: seq<string>): string
    decreases |parts|
  {
    if parts == [] then "" else Lines(parts[..|parts| - 1]) + parts[|parts| - 1] + "\n"
  }

  /** Lines with its first part taken off the front. */
  lemma LinesCons(xs: seq<string>)
    requires xs != []
    ensures Lines(xs) == xs[0] + "\n" + Lines(xs[1..])
  {
    LinesAppend([xs[0]], xs[1..]);
    assert [xs[0]] + xs[1..] == xs;
    assert [xs[0]][..0] == [];
  }

  /** Lines of a concatenation. */
  lemma {:induction false} LinesAppend(a: seq<string>, b: seq<string>)
    ensures Lines(a + b) == Lines(a) + Lines(b)
    decreases |b|
  {
    if b == [] {
      assert a + b == a;
    } else {
      var n := |b| - 1;
      LinesAppend(a, b[..n]);
      assert (a + b)[..|a + b| - 1] == a + b[..n];
    }
  }

  /** The values f(k) for the k below n that keep selects, in order. */
  function Pick(n: nat, keep: nat -> bool, f: nat -> string): seq<string>
    decreases n
  {
    if n == 0 then []
    else Pick(n - 1, keep, f) + (if keep(n - 1) then [f(n - 1)] else [])
  }

  lemma LinesPickStep(n: nat, keep: nat -> bool, f: nat -> string)
    requires n > 0
    ensures Lines(Pick(n, keep, f)) == Lines(Pick(n - 1, keep, f)) + (if keep(n - 1) then f(n - 1) + "\n" else "")
  {
    var prev := Pick(n - 1, keep, f);
    if keep(n - 1) {
      assert (prev + [f(n - 1)])[..|prev|] == prev;
    } else {
      assert prev + [] == prev;
    }
  }

  /** ASCII case mapping of one character. */
  function Lower(c: char): char {
    if 'A' <= c <= 'Z' then (c as int + 32) as char else c
  }

  function Upper(c: char): char {
    if 'a' <= c <= 'z' then (c as int - 32) as char else c
  }

  /** strings.ToLower and strings.ToUpper on ASCII letters. */
  function ToLower(s: string): (r: string)
    ensures |r| == |s| && forall i :: 0 <= i < |s| ==> r[i] == Lower(s[i])
  {
    seq(|s|, i requires 0 <= i < |s| => Lower(s[i]))
  }

  function ToUpper(s: string): (r: string)
    ensures |r| == |s| && forall i :: 0 <= i < |s| ==> r[i] == Upper(s[i])
  {
    seq(|s|, i requires 0 <= i < |s| => Upper(s[i]))
  }

  /** strings.TrimRight(s, [c]): every trailing c removed. */
  function TrimRight(s: string, c: char): (r: string)
    ensures |r| <= |s| && r == s[..|r|]
    ensures r == [] || r[|r| - 1] != c
    ensures forall k :: |r| <= k < |s| ==> s[k] == c
    decreases |s|
  {
    if s != [] && s[|s| - 1] == c then TrimRight(s[..|s| - 1], c) else s
  }

  /** strings.Replace(s, pat, rep, -1) with a non-empty old. */
  function ReplaceAll(s: string, pat: string, rep: string): (r: string)
    requires pat != ""
    ensures r == Join(Split(s, pat), rep)
    decreases |s|
  {
    var i := Index(s, pat);
    if i < 0 then s
    else s[..i] + rep + ReplaceAll(s[i + |pat|..], pat, rep)
  }

  lemma ReplaceAllRemoves(s: string, pat: string)
    requires pat != ""
    ensures !Contains(ReplaceAll(s, pat, ""), pat) || Contains(s, pat)
  {
  }

  // ---------------------------------------------------------------------
  // Number formatting

  function DigitChar(d: nat): char
    requires d < 10
  {
    "0123456789"[d]
  }

  /** Decimal digits of n, as strconv.Itoa / fmt "%d" print them. */
  function NatToString(n: nat): (r: string)
    ensures |r| >= 1
    ensures forall k :: 0 <= k < |r| ==> '0' <= r[k] <= '9'
    decreases n
  {
    if n < 10 then [DigitChar(n)] else NatToString(n / 10) + [DigitChar(n % 10)]
  }

  function IntToString(i: int): (r: string)
    ensures |r| >= 1
  {
    if i < 0 then "-" + NatToString(-i) else NatToString(i)
  }

  function DigitValue(c: char): nat {
    if '0' <= c <= '9' then (c as int - '0' as int) as nat else 0
  }

  /** The value of a string of decimal digits. */
  function ParseNat(s: string): nat
    decreases |s|
  {
    if s == [] then 0 else 10 * ParseNat(s[..|s| - 1]) + DigitValue(s[|s| - 1])
  }

  lemma {:induction false} ParseNatToString(n: nat)
    ensures ParseNat(NatToString(n)) == n
    decreases n
  {
    var r := NatToString(n);
    if n < 10 {
      DigitCharValue(n);
      assert r[..|r| - 1] == [];
    } else {
      var q, d := n / 10, n % 10;
      ParseNatToString(q);
      assert r == NatToString(q) + [DigitChar(d)];
      assert r[..|r| - 1] == NatToString(q);
      DigitCharValue(d);
    }
  }

  lemma DigitCharValue(d: nat)
    requires d < 10
    ensures DigitValue(DigitChar(d)) == d
  {
  }

  /** The integer a decimal string with an optional leading '-' denotes. */
  function ParseInt(s: string): int {
    if s != [] && s[0] == '-' then 0 - ParseNat(s[1..]) as int else ParseNat(s)
  }

  lemma ParseIntToString(i: int)
    ensures ParseInt(IntToString(i)) == i
  {
    var s := IntToString(i);
    if i < 0 {
      var n: nat := -i;
      assert s == "-" + NatToString(n);
      ParseNatToString(n);
      ParseNegative(NatToString(n));
    } else {
      var n: nat := i;
      assert s == NatToString(n);
      ParseNatToString(n);
      ParseNonNegative(NatToString(n));
    }
  }

  lemma ParseNegative(d: string)
    ensures ParseInt("-" + d) == 0 - ParseNat(d) as int
  {
    assert ("-" + d)[1..] == d;
  }

  lemma ParseNonNegative(d: string)
    requires d != [] && '0' <= d[0] <= '9'
    ensures ParseInt(d) == ParseNat(d)
  {
  }

  /** A non-empty run of decimal digits. */
  predicate Decimal(s: string) {
    s != [] && forall k :: 0 <= k < |s| ==> '0' <= s[k] <= '9'
  }

  /** strconv.Atoi: an optional sign and decimal digits; None is its
   *  syntax error. The int64 range error is not modelled. */
  function Atoi(s: string): (r: Option<int>)
    ensures r.Some? <==> Decimal(s) || (s != [] && (s[0] == '+' || s[0] == '-') && Decimal(s[1..]))
  {
    if s != [] && (s[0] == '+' || s[0] == '-') then
      if Decimal(s[1..]) then Some(if s[0] == '-' then 0 - ParseNat(s[1..]) else ParseNat(s[1..])) else None
    else if Decimal(s) then Some(ParseNat(s)) else None
  }

  /** Atoi reads back what Itoa prints. */
  lemma AtoiIntToString(i: int)
    ensures Atoi(IntToString(i)) == Some(i)
  {
    var s := IntToString(i);
    if i < 0 {
      var n: nat := -i;
      assert s == "-" + NatToString(n);
      assert s[1..] == NatToString(n);
      ParseNatToString(n);
    } else {
      ParseNatToString(i);
    }
  }

  function Spaces(n: nat): (r: string)
    ensures |r| == n && forall k :: 0 <= k < n ==> r[k] == ' '
  {
    if n == 0 then "" else " " + Spaces(n - 1)
  }

  /** fmt's "%<w>s": s right-aligned in a field of width w. */
  function PadLeft(s: string, w: nat): (r: string)
    ensures |r| == if |s| < w then w else |s|
    ensures HasSuffix(r, s)
  {
    if |s| < w then Spaces(w - |s|) + s else s
  }

  function Zeros(n: nat): (r: string)
    ensures |r| == n && forall k :: 0 <= k < n ==> r[k] == '0'
  {
    if n == 0 then "" else "0" + Zeros(n - 1)
  }

  /** fmt's "%0<w>d" for a non-negative value. */
  function ZeroPad(n: nat, w: nat): (r: string)
    ensures |r| == if |NatToString(n)| < w then w else |NatToString(n)|
  {
    var d := NatToString(n);
    if |d| < w then Zeros(w - |d|) + d else d
  }

  /** Leading zeros do not change the value a digit string denotes. */
  lemma {:induction false} ParseLeadingZeros(z: string, d: string)
    requires forall k :: 0 <= k < |z| ==> z[k] == '0'
    ensures ParseNat(z + d) == ParseNat(d)
    decreases |d| + |z|
  {
    if d == [] {
      assert z + d == z;
      if z != [] {
        ParseLeadingZeros(z[..|z| - 1], []);
        assert z[..|z| - 1] + [] == z[..|z| - 1];
      }
    } else {
      var init := d[..|d| - 1];
      assert (z + d)[..|z + d| - 1] == z + init;
      ParseLeadingZeros(z, init);
    }
  }

  /** The zero padding of "%0<w>d" reads back as the number. */
  lemma ParseZeroPad(n: nat, w: nat)
    ensures ParseNat(ZeroPad(n, w)) == n
  {
    ParseNatToString(n);
    var d := NatToString(n);
    if |d| < w {
      ParseLeadingZeros(Zeros(w - |d|), d);
    }
  }

  /** fmt's "%5d", the width the spectro input uses throughout. */
  function Int5(i: int): (r: string)
    ensures |r| >= 5
  {
    PadLeft(IntToString(i), 5)
  }

  // ---------------------------------------------------------------------
  // Integer arithmetic

  /** Multiplying by a non-negative number keeps the order. */
  lemma MulSucc(a: int, b: int)
    ensures a * (b + 1) == a * b + a
  {
  }

  lemma MulMono(a: int, b: int, c: int)
    requires a <= b && c >= 0
    ensures a * c <= b * c
  {
    assert b * c - a * c == (b - a) * c;
  }

  /** A quotient bounded by multiples of a positive divisor. */
  lemma MulCancel(q: int, c: int, w: int)
    requires w > 0 && q * w < c * w
    ensures q < c
  {
    if q >= c {
      MulMono(c, q, w);
      assert false;
    }
  }

  /** The quotient and remainder of x by l are q and r when x is q * l + r
   *  with 0 <= r < l. */
  lemma DivUnique(x: int, l: int, q: int, r: int)
    requires l > 0 && 0 <= r < l && x == q * l + r
    ensures x / l == q && x % l == r
  {
    var q' := x / l;
    assert x == q' * l + x % l;
    assert (q' + 1) * l == q' * l + l;
    assert (q + 1) * l == q * l + l;
    MulCancel(q, q' + 1, l);
    MulCancel(q', q + 1, l);
  }

  /** Go's integer division, which truncates toward zero. */
  function Quo(a: int, b: int): int
    requires b > 0
  {
    if a >= 0 then a / b else -((-a) / b)
  }
}
