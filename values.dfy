/** Building blocks shared by every report of the server: optional provider fields, the cells
    handed to the table renderer, the number/date formatters (left uninterpreted), the
    placeholder policy, Python's "\n".join, and the filtered list comprehension. */
module Values {

  datatype Option<+T> = None | Some(value: T)

  /** A value computed or returned by a provider call, or the text of the exception that
      interrupted it. */
  datatype Result<+T> = Ok(value: T) | Err(reason: string)

  /** A calendar date or timestamp; reports show it only through `Formatters.date`. */
  datatype Date = Date(year: int, month: int, day: int)

  /** One cell given to the table renderer. */
  datatype Cell =
    | Text(s: string)             // a string the report built
    | Num(x: real)                // a provider number passed through unformatted
    | Int(n: int)                 // a Python int passed through unformatted
    | Nan                         // a missing provider value passed through unchanged
    | Placeholder(token: string)  // the fixed token shown instead of a missing or suppressed value

  const NA: Cell := Placeholder("N/A")
  const DASH: Cell := Placeholder("-")

  /** The text conversions the server leaves to Python and to `tabulate`. Each field is a total
      function that the model never looks inside: the proofs hold whatever they print. */
  datatype Formatters = Formatters(
    money2: real -> string,         // f"${x:.2f}"
    moneyGrouped2: real -> string,  // f"${x:,.2f}"
    money4: real -> string,         // f"${x:.4f}"
    moneyGrouped0: real -> string,  // f"${x:,.0f}"
    fixed2: real -> string,         // f"{x:.2f}"
    whole0: real -> string,         // f"{x:.0f}"
    grouped0: real -> string,       // f"{x:,.0f}"
    groupedInt: int -> string,      // f"{n:,}"
    intText: int -> string,         // str(n)
    percent2: real -> string,       // f"{x*100:.2f}%"
    percent1: real -> string,       // f"{x*100:.1f}%"
    signedPercent2: real -> string, // f"{x*100:+.2f}%"
    plainPercent1: real -> string,  // f"{x:.1f}%"
    billions1: real -> string,      // f"${x/1e9:.1f}B"
    millions1: real -> string,      // f"${x/1e6:.1f}M"
    title: string -> string,        // str.title()
    date: Date -> string,           // strftime('%Y-%m-%d')
    render: (seq<string>, seq<seq<Cell>>) -> string  // tabulate(rows, headers=..., tablefmt="plain")
  )

  /** Python truthiness of an optional number: None and zero are both false. */
  predicate Truthy(o: Option<real>) {
    o.Some? && o.value != 0.0
  }

  predicate TruthyInt(o: Option<int>) {
    o.Some? && o.value != 0
  }

  /** `f"..." if d.get(k) else "N/A"`: the formatter is applied only to a truthy value. */
  function WhenTruthy(o: Option<real>, f: real -> string): (c: Cell)
    ensures c == NA <==> !Truthy(o)
    ensures c != NA ==> c == Text(f(o.value))
  {
    if Truthy(o) then Text(f(o.value)) else NA
  }

  /** `f"..." if pd.notnull(v) else "N/A"`: the formatter is applied to every present value. */
  function WhenPresent(o: Option<real>, f: real -> string): (c: Cell)
    ensures c == NA <==> o.None?
    ensures c != NA ==> c == Text(f(o.value))
  {
    if o.Some? then Text(f(o.value)) else NA
  }

  /** `f"..." if v > 0 else "-"`: a missing value compares false, so it shows the dash. */
  function WhenPositive(o: Option<real>, f: real -> string): (c: Cell)
    ensures c == DASH <==> !(o.Some? && o.value > 0.0)
    ensures c != DASH ==> c == Text(f(o.value))
  {
    if o.Some? && o.value > 0.0 then Text(f(o.value)) else DASH
  }

  /** `d.get(k, 'N/A')` on a text field. */
  function TextOrNA(o: Option<string>): (c: Cell)
    ensures c == NA <==> o.None?
    ensures c != NA ==> c == Text(o.value)
  {
    if o.Some? then Text(o.value) else NA
  }

  /** `d.get(k, 'N/A')` on a numeric field passed to the renderer unformatted. */
  function NumOrNA(o: Option<real>): (c: Cell)
    ensures c == NA <==> o.None?
    ensures c != NA ==> c == Num(o.value)
  {
    if o.Some? then Num(o.value) else NA
  }

  /** The same default, spliced into an f-string rather than given to the renderer. */
  function TextOr(o: Option<string>): (s: string)
    ensures o.None? ==> s == "N/A"
    ensures o.Some? ==> s == o.value
  {
    if o.Some? then o.value else "N/A"
  }

  /** Python's `int(x)` on a float: truncation toward zero. */
  function Trunc(x: real): (n: int)
    ensures 0.0 <= x ==> n as real <= x < n as real + 1.0
    ensures x < 0.0 ==> n as real - 1.0 < x <= n as real
  {
    if 0.0 <= x then x.Floor else -((-x).Floor)
  }

  function Abs(x: real): (r: real)
    ensures 0.0 <= r && (r == x || r == -x)
  {
    if x < 0.0 then -x else x
  }

  /** Python's `"\n".join(parts)`. */
  function JoinLines(parts: seq<string>): (r: string)
    ensures parts == [] ==> r == ""
  {
    if |parts| == 0 then ""
    else if |parts| == 1 then parts[0]
    else parts[0] + "\n" + JoinLines(parts[1..])
  }

  /** Every part preceded by a newline: what the parts after the first contribute to a join. */
  function NewlinePrefixed(parts: seq<string>): (r: string)
  {
    if parts == [] then "" else "\n" + parts[0] + NewlinePrefixed(parts[1..])
  }

  lemma {:induction false} JoinLinesCons(x: string, rest: seq<string>)
    ensures JoinLines([x] + rest) == x + NewlinePrefixed(rest)
    decreases |rest|
  {
    if rest == [] {
      assert [x] + rest == [x];
    } else {
      assert ([x] + rest)[1..] == rest;
      assert rest == [rest[0]] + rest[1..];
      JoinLinesCons(rest[0], rest[1..]);
    }
  }

  lemma ConcatRegroup<T>(a: seq<T>, b: seq<T>, c: seq<T>, d: seq<T>)
    ensures a + b + c + d == a + (b + c + d)
  {
  }

  lemma JoinLinesTwo(a: string, b: string)
    ensures JoinLines([a, b]) == a + "\n" + b
  {
    assert [a, b][1..] == [b];
  }

  lemma JoinLinesFour(a: string, b: string, c: string, d: string)
    ensures JoinLines([a, b, c, d]) == a + "\n" + b + "\n" + c + "\n" + d
  {
    assert [a, b, c, d][1..] == [b, c, d];
    assert [b, c, d][1..] == [c, d];
    assert [c, d][1..] == [d];
    JoinLinesTwo(c, d);
    assert JoinLines([b, c, d]) == b + "\n" + (c + "\n" + d);
    assert JoinLines([a, b, c, d]) == a + "\n" + (b + "\n" + (c + "\n" + d));
  }

  /** Joining puts the first part first and a newline before each later part. */
  lemma JoinLinesFirst(a: seq<string>, b: seq<string>)
    requires a != []
    ensures JoinLines(a + b) == a[0] + NewlinePrefixed(a[1..] + b)
  {
    assert a + b == [a[0]] + (a[1..] + b);
    JoinLinesCons(a[0], a[1..] + b);
  }

  /** Joining a non-empty list and then more parts: the later parts each add "\n" and themselves. */
  lemma {:induction false} JoinLinesAppend(a: seq<string>, b: seq<string>)
    requires a != []
    ensures JoinLines(a + b) == JoinLines(a) + NewlinePrefixed(b)
  {
    if |a| == 1 {
      assert a == [a[0]];
      JoinLinesCons(a[0], b);
      JoinLinesCons(a[0], []);
    } else {
      assert a + b == [a[0]] + (a[1..] + b);
      assert a == [a[0]] + a[1..];
      JoinLinesCons(a[0], a[1..] + b);
      JoinLinesCons(a[0], a[1..]);
      JoinLinesAppend(a[1..], b);
      JoinLinesCons(a[1..][0], a[1..][1..]);
      assert a[1..] == [a[1..][0]] + a[1..][1..];
      NewlinePrefixedAppendOne(a[1..]);
    }
  }

  lemma {:induction false} NewlinePrefixedAppendOne(a: seq<string>)
    requires a != []
    ensures NewlinePrefixed(a) == "\n" + JoinLines(a)
  {
    assert a == [a[0]] + a[1..];
    JoinLinesCons(a[0], a[1..]);
  }

  /** `[f(x) for x in xs if keep(x)]`. */
  function KeepMap<T, U>(xs: seq<T>, keep: T -> bool, f: T -> U): (ys: seq<U>)
    ensures |ys| <= |xs|
    ensures ys == [] <==> forall i :: 0 <= i < |xs| ==> !keep(xs[i])
    ensures (forall i :: 0 <= i < |xs| ==> keep(xs[i])) ==> |ys| == |xs|
  {
    if xs == [] then []
    else
      var rest := KeepMap(xs[1..], keep, f);
      assert forall i :: 1 <= i < |xs| ==> xs[i] == xs[1..][i - 1];
      if keep(xs[0]) then [f(xs[0])] + rest else rest
  }

  /** The comprehension keeps input order: it distributes over concatenation. */
  lemma {:induction false} KeepMapAppend<T, U>(a: seq<T>, b: seq<T>, keep: T -> bool, f: T -> U)
    ensures KeepMap(a + b, keep, f) == KeepMap(a, keep, f) + KeepMap(b, keep, f)
  {
    if a == [] {
      assert a + b == b;
    } else {
      assert (a + b)[1..] == a[1..] + b;
      KeepMapAppend(a[1..], b, keep, f);
    }
  }

  /** When nothing is dropped, the comprehension is the plain elementwise projection. */
  lemma {:induction false} KeepMapAll<T, U>(xs: seq<T>, keep: T -> bool, f: T -> U)
    requires forall i :: 0 <= i < |xs| ==> keep(xs[i])
    ensures |KeepMap(xs, keep, f)| == |xs|
    ensures forall i :: 0 <= i < |xs| ==> KeepMap(xs, keep, f)[i] == f(xs[i])
  {
    if xs != [] {
      assert forall i :: 1 <= i < |xs| ==> xs[i] == xs[1..][i - 1];
      KeepMapAll(xs[1..], keep, f);
    }
  }
}
