/** Octet strings and the character classes of the C locale.

    A `char` stands for one octet of a `std::string`. The classification and case functions below
    act on the ASCII letters and spaces only, as the C library does in the "C" locale.
  */
module Text {

  datatype Option<+T> = None | Some(value: T)

  predicate IsSpace(c: char) {
    c == ' ' || '\t' <= c <= '\r'
  }

  predicate IsDigit(c: char) {
    '0' <= c <= '9'
  }

  predicate IsLineEnd(c: char) {
    c == '\r' || c == '\n'
  }

  /** No line feed inside. */
  predicate Tidy(s: string) {
    '\n' !in s
  }

  /** Neither a space nor a line feed inside. */
  predicate IsWord(s: string) {
    ' ' !in s && '\n' !in s
  }

  predicate AllTidy(texts: seq<string>) {
    forall i :: 0 <= i < |texts| ==> Tidy(texts[i])
  }

  /** Text from outside the program, such as the description of a socket error. */
  type Words = s: string | Tidy(s)

  /** The address of a peer. */
  type Address = s: string | IsWord(s)

  function LowerChar(c: char): char {
    if 'A' <= c <= 'Z' then (c as int + 32) as char else c
  }

  function UpperChar(c: char): char {
    if 'a' <= c <= 'z' then (c as int - 32) as char else c
  }

  function Lower(s: string): (r: string)
    ensures |r| == |s|
  {
    seq(|s|, i requires 0 <= i < |s| => LowerChar(s[i]))
  }

  /** Upper-casing keeps the length and the position of every space, and a second pass changes nothing. */
  function Upper(s: string): (r: string)
    ensures |r| == |s|
    ensures forall i :: 0 <= i < |s| ==> (r[i] == ' ' <==> s[i] == ' ')
    ensures forall i :: 0 <= i < |s| ==> UpperChar(r[i]) == r[i] == UpperChar(s[i])
  {
    seq(|s|, i requires 0 <= i < |s| => UpperChar(s[i]))
  }

  /** Folding to lower and to upper case identify the same characters: the two cases of a letter. */
  lemma CasesAgree(c: char, d: char)
    ensures LowerChar(c) == LowerChar(d) <==> UpperChar(c) == UpperChar(d)
    ensures 'a' <= c <= 'z' ==> LowerChar(c) == c != UpperChar(c)
    ensures LowerChar(c) != c <==> 'A' <= c <= 'Z'
    ensures UpperChar(c) != c <==> 'a' <= c <= 'z'
    ensures LowerChar('A') == 'a' && LowerChar('Z') == 'z' && UpperChar('a') == 'A' && UpperChar('z') == 'Z'
  {}

  lemma UpperTwice(s: string)
    ensures Upper(Upper(s)) == Upper(s)
  {
    assert forall i :: 0 <= i < |s| ==> Upper(Upper(s))[i] == Upper(s)[i];
  }

  /** The text with its whole tail of CR and LF characters removed. */
  function TrimLineEnd(s: string): (r: string)
    ensures r <= s
    ensures r != "" ==> !IsLineEnd(r[|r| - 1])
    ensures forall i :: |r| <= i < |s| ==> IsLineEnd(s[i])
  {
    if s != "" && IsLineEnd(s[|s| - 1]) then TrimLineEnd(s[..|s| - 1]) else s
  }

  /** Trimming is determined by its outcome: the only cut at which the kept part does not end in a
      line-end character and the dropped part holds nothing else. */
  lemma {:induction false} TrimUnique(body: string, tail: string)
    requires body != "" ==> !IsLineEnd(body[|body| - 1])
    requires forall i :: 0 <= i < |tail| ==> IsLineEnd(tail[i])
    ensures TrimLineEnd(body + tail) == body
  {
    if tail == "" {
      assert body + tail == body;
    } else {
      assert (body + tail)[..|body + tail| - 1] == body + tail[..|tail| - 1];
      TrimUnique(body, tail[..|tail| - 1]);
    }
  }

  /** The index of the first occurrence of `c`, or the length of the text. */
  function Find(s: string, c: char): (i: nat)
    ensures i <= |s|
    ensures i < |s| ==> s[i] == c
    ensures forall k :: 0 <= k < i ==> s[k] != c
  {
    if s == "" || s[0] == c then 0 else 1 + Find(s[1..], c)
  }

  function Concat(parts: seq<string>): string {
    if parts == [] then "" else parts[0] + Concat(parts[1..])
  }

  lemma {:induction false} ConcatSnoc(parts: seq<string>, last: string)
    ensures Concat(parts + [last]) == Concat(parts) + last
  {
    if parts == [] {
      assert parts + [last] == [last];
      assert Concat([last]) == last + Concat([]);
    } else {
      assert (parts + [last])[1..] == parts[1..] + [last];
      ConcatSnoc(parts[1..], last);
      assert Concat(parts) + last == parts[0] + (Concat(parts[1..]) + last);
    }
  }

  /** The non-empty pieces between commas, in order. */
  function Pieces(value: string): seq<string> {
    var comma := Find(value, ',');
    if comma == |value| then FirstPiece(value) else FirstPiece(value) + Pieces(value[comma + 1..])
  }

  lemma {:induction false} PiecesAreNonEmptyAndCommaFree(value: string)
    ensures forall p :: p in Pieces(value) ==> p != "" && ',' !in p
    decreases |value|
  {
    var comma := Find(value, ',');
    if comma < |value| {
      PiecesAreNonEmptyAndCommaFree(value[comma + 1..]);
    }
  }

  lemma {:induction false} PiecesAreTidy(value: string)
    requires Tidy(value)
    ensures AllTidy(Pieces(value))
    decreases |value|
  {
    var end := Find(value, ',');
    if end < |value| {
      PiecesAreTidy(value[end + 1..]);
    }
  }

  function FirstPiece(rest: string): seq<string> {
    var end := Find(rest, ',');
    if end > 0 then [rest[..end]] else []
  }

  lemma PiecesStep(rest: string, parts: seq<string>)
    requires ',' in rest
    ensures var end := Find(rest, ',');
            end < |rest| && parts + Pieces(rest) == parts + FirstPiece(rest) + Pieces(rest[end + 1..])
  {
    var end := Find(rest, ',');
    assert parts + (FirstPiece(rest) + Pieces(rest[end + 1..])) == parts + FirstPiece(rest) + Pieces(rest[end + 1..]);
  }

  // ----- Splitting undoes joining -----

  function JoinTexts(parts: seq<string>): string
    requires parts != []
  {
    if |parts| == 1 then parts[0] else parts[0] + "," + JoinTexts(parts[1..])
  }

  function NonEmpty(parts: seq<string>): seq<string> {
    if parts == [] then [] else (if parts[0] != "" then [parts[0]] else []) + NonEmpty(parts[1..])
  }

  predicate CommaFree(parts: seq<string>) {
    forall i :: 0 <= i < |parts| ==> ',' !in parts[i]
  }

  /** The split of joined texts gives back the non-empty ones, in order. */
  lemma {:induction false} SplitUndoesJoin(parts: seq<string>)
    requires parts != [] && CommaFree(parts)
    ensures Pieces(JoinTexts(parts)) == NonEmpty(parts)
  {
    var first, value := parts[0], JoinTexts(parts);
    if |parts| == 1 {
      assert Find(value, ',') == |value| && value[..|value|] == value;
      assert NonEmpty(parts[1..]) == [];
    } else {
      SplitUndoesJoin(parts[1..]);
      CutAtComma(first, JoinTexts(parts[1..]));
      assert value == first + "," + JoinTexts(parts[1..]);
    }
  }

  lemma CutAtComma(first: string, more: string)
    requires ',' !in first
    ensures Pieces(first + "," + more) == (if first != "" then [first] else []) + Pieces(more)
  {
    var value := first + "," + more;
    assert value[|first|] == ',' && forall k :: 0 <= k < |first| ==> value[k] == first[k];
    assert Find(value, ',') == |first|;
    assert value[..|first|] == first && value[|first| + 1..] == more;
  }

  /** Every text is such a join, so this says what a split is for every text. */
  lemma {:induction false} EveryTextIsJoined(value: string) returns (parts: seq<string>)
    ensures parts != [] && CommaFree(parts) && JoinTexts(parts) == value
    decreases |value|
  {
    var comma := Find(value, ',');
    if comma == |value| {
      parts := [value];
    } else {
      var more := EveryTextIsJoined(value[comma + 1..]);
      parts := [value[..comma]] + more;
      assert parts[1..] == more;
      assert value == value[..comma] + "," + value[comma + 1..];
    }
  }

  /** `IrcApplication::splitComma`: a scan that cuts the text at each comma and keeps non-empty cuts. */
  method SplitComma(value: string) returns (parts: seq<string>)
    ensures parts == Pieces(value)
    ensures forall whole :: whole != [] && CommaFree(whole) && JoinTexts(whole) == value ==> parts == NonEmpty(whole)
  {
    forall whole | whole != [] && CommaFree(whole) && JoinTexts(whole) == value
      ensures Pieces(value) == NonEmpty(whole)
    {
      SplitUndoesJoin(whole);
    }
    parts := CutAtCommas(value);
  }

  method CutAtCommas(value: string) returns (parts: seq<string>)
    ensures parts == Pieces(value)
  {
    parts := [];
    var rest := value;
    while ',' in rest
      invariant parts + Pieces(rest) == Pieces(value)
      decreases |rest|
    {
      var end := Find(rest, ',');
      PiecesStep(rest, parts);
      parts := if end > 0 then parts + [rest[..end]] else parts;
      rest := rest[end + 1..];
    }
    assert Pieces(rest) == if rest != "" then [rest] else [] by {
      assert Find(rest, ',') == |rest| && rest[..|rest|] == rest;
    }
    if rest != "" {
      parts := parts + [rest];
    }
  }

  /** `std::to_string` on an unsigned value. */
  function Decimal(n: nat): (r: string)
    ensures r != "" && forall i :: 0 <= i < |r| ==> IsDigit(r[i])
  {
    var digit := (n % 10 + '0' as int) as char;
    if n < 10 then [digit] else Decimal(n / 10) + [digit]
  }

  function DecimalValue(s: string): nat
    requires forall i :: 0 <= i < |s| ==> IsDigit(s[i])
  {
    if s == "" then 0
    else
      var last := s[|s| - 1];
      assert IsDigit(last);
      10 * DecimalValue(s[..|s| - 1]) + (last as int - '0' as int)
  }

  lemma {:induction false} DecimalRoundTrip(n: nat)
    ensures DecimalValue(Decimal(n)) == n
  {
    var r := Decimal(n);
    if n >= 10 {
      DecimalRoundTrip(n / 10);
      assert r[..|r| - 1] == Decimal(n / 10);
    } else {
      assert r[..|r| - 1] == "";
    }
  }
}
