/** Printing and parsing of pairing, drop and tunnel codes.  The upper-casing of a
    character is a parameter: only its behaviour on ASCII is fixed, because outside ASCII
    one character may become several or an ASCII one. */
module Codes {
  import opened Ascii
  import opened Collections
  import opened Options

  const ALPHABET := "ABCDEFGHJKLMNPQRSTUVWXYZ23456789"
  const GROUP := 4
  const CODE_LENGTH := 16
  const DROP_LENGTH := 8

  type Upper = char -> string

  function AsciiUpper(c: char): char {
    if 'a' <= c <= 'z' then (c as int - 32) as char else c
  }

  ghost predicate Faithful(up: Upper) {
    forall c: char :: c as int < 128 ==> up(c) == [AsciiUpper(c)]
  }

  // ─── trim, upper-case, keep A-Z and 0-9 ───────────────────────────────────

  predicate Blank(c: char) {
    || '\U{9}' <= c <= '\U{D}' || c == ' ' || c == '\U{A0}' || c == '\U{1680}' || '\U{2000}' <= c <= '\U{200A}'
    || c == '\U{2028}' || c == '\U{2029}' || c == '\U{202F}' || c == '\U{205F}' || c == '\U{3000}' || c == '\U{FEFF}'
  }

  function TrimLeft(s: string): string {
    if s != "" && Blank(s[0]) then TrimLeft(s[1..]) else s
  }

  function TrimRight(s: string): string {
    if s != "" && Blank(s[|s| - 1]) then TrimRight(s[..|s| - 1]) else s
  }

  predicate Plain(c: char) {
    'A' <= c <= 'Z' || '0' <= c <= '9'
  }

  predicate AllPlain(s: string) {
    forall c :: c in s ==> Plain(c)
  }

  function UpperAll(up: Upper, s: string): string {
    if s == "" then "" else up(s[0]) + UpperAll(up, s[1..])
  }

  function KeepOne(c: char): string {
    if Plain(c) then [c] else ""
  }

  function Keep(s: string): string {
    if s == "" then "" else KeepOne(s[0]) + Keep(s[1..])
  }

  /** Kept are the capitals and the digits; upper-casing turns each small letter into the
      capital at its place and leaves every other ASCII character. */
  lemma KeptLetters(c: char)
    ensures KeepOne(c) == if c in CAPITALS || c in NUMERALS then [c] else ""
    ensures c in SMALLS ==> c as int - 97 < 26 && AsciiUpper(c) == CAPITALS[c as int - 97]
    ensures c !in SMALLS ==> AsciiUpper(c) == c
  {
    hide AsciiUpper;
    Capitals(c);
    Numerals(c);
    Smalls(c);
    UppercaseIsCapital(c);
  }

  lemma UppercaseIsCapital(c: char)
    ensures if c in SMALLS then AsciiUpper(c) as int == c as int - 32 && AsciiUpper(c) in CAPITALS else AsciiUpper(c) == c
    ensures c in SMALLS ==> c as int - 97 < 26 && CAPITALS[c as int - 97] == AsciiUpper(c)
  {
    Smalls(c);
    Capitals(AsciiUpper(c));
  }

  function Clean(up: Upper, raw: string): string {
    Keep(UpperAll(up, TrimRight(TrimLeft(raw))))
  }

  // ─── The three printers and parsers ───────────────────────────────────────

  function Dash(b: string): string {
    ['-'] + b
  }

  function FourGroups(body: string): string
    requires |body| == CODE_LENGTH
  {
    body[..4] + Dash(body[4..8] + Dash(body[8..12] + Dash(body[12..])))
  }

  function TwoGroups(body: string): string
    requires |body| == DROP_LENGTH
  {
    body[..GROUP] + Dash(body[GROUP..])
  }

  function PairingCode(body: string): string
    requires |body| == CODE_LENGTH
  {
    "MD" + Dash(FourGroups(body))
  }

  function DropCode(body: string, group: bool): string
    requires |body| == DROP_LENGTH
  {
    "DROP" + Dash(if group then "GRP" + Dash(TwoGroups(body)) else TwoGroups(body))
  }

  function TunnelCode(body: string): string
    requires |body| == DROP_LENGTH
  {
    "TUNNEL" + Dash(TwoGroups(body))
  }

  function Strip(prefix: string, s: string): string {
    if prefix <= s then s[|prefix|..] else s
  }

  function NormalizePairingCode(up: Upper, raw: string): Option<string> {
    var body := Strip("MD", Clean(up, raw));
    if |body| != CODE_LENGTH then None else Some(PairingCode(body))
  }

  function NormalizeDropCode(up: Upper, raw: string): Option<string> {
    var clean := Clean(up, raw);
    var group := "DROPGRP" <= clean || "GRP" <= clean;
    var body := if "DROPGRP" <= clean then clean[7..] else if "GRP" <= clean then clean[3..] else Strip("DROP", clean);
    if |body| != DROP_LENGTH then None else Some(DropCode(body, group))
  }

  function NormalizeTunnelCode(up: Upper, raw: string): Option<string> {
    var body := Strip("TUNNEL", Clean(up, raw));
    if |body| != DROP_LENGTH then None else Some(TunnelCode(body))
  }

  method FormatCode(raw: string) returns (code: string)
    requires |raw| == CODE_LENGTH
    ensures code == PairingCode(raw)
  {
    var groups: seq<string> := [];
    for i := 0 to 4
      invariant |groups| == i
      invariant forall j :: 0 <= j < i ==> groups[j] == raw[j * GROUP..(j + 1) * GROUP]
    {
      groups := groups + [raw[i * GROUP..(i + 1) * GROUP]];
    }
    JoinOfFour(groups);
    assert raw[12..] == raw[12..16];
    code := "MD-" + Join(groups, '-');
    assert "MD-" + Join(groups, '-') == "MD" + Dash(Join(groups, '-'));
  }

  lemma JoinOfFour(g: seq<string>)
    requires |g| == 4
    ensures Join(g, '-') == g[0] + Dash(g[1] + Dash(g[2] + Dash(g[3])))
  {
    assert g[3..] == [g[3]];
    assert g[2..][1..] == g[3..] && g[1..][1..] == g[2..];
    assert Join(g[2..], '-') == g[2] + Dash(g[3]);
    assert Join(g[1..], '-') == g[1] + Dash(Join(g[2..], '-'));
  }

  function Letter(b: nat): char {
    ALPHABET[b % 32]
  }

  /** A code is printed in the capitals but for I and O and the digits but for 0 and 1. */
  lemma AlphabetExact()
    ensures ALPHABET == CAPITALS[..8] + CAPITALS[9..14] + CAPITALS[15..] + NUMERALS[2..]
    ensures CAPITALS[8] == 'I' && CAPITALS[14] == 'O' && NUMERALS[..2] == "01"
  {
  }

  // The characters a generator prints for its random bytes.
  function Letters(bytes: seq<nat>): string {
    seq(|bytes|, i requires 0 <= i < |bytes| => Letter(bytes[i]))
  }

  lemma LettersArePlain(bytes: seq<nat>)
    ensures AllPlain(Letters(bytes))
  {
    var s := Letters(bytes);
    forall c | c in s ensures Plain(c) {
      var i :| 0 <= i < |s| && s[i] == c;
      LetterIsPlain(bytes[i]);
    }
  }

  lemma LetterIsPlain(b: nat)
    ensures Plain(Letter(b))
  {
  }

  method Spell(bytes: seq<nat>) returns (text: string)
    ensures text == Letters(bytes)
  {
    text := "";
    for i := 0 to |bytes|
      invariant text == Letters(bytes[..i])
    {
      text := text + [Letter(bytes[i])];
    }
    assert bytes[..|bytes|] == bytes;
  }

  method GeneratePairingCode(bytes: seq<nat>) returns (code: string)
    requires |bytes| == CODE_LENGTH
    ensures code == PairingCode(Letters(bytes))
    ensures forall up :: Faithful(up) ==> NormalizePairingCode(up, code) == Some(code)
  {
    var body := Spell(bytes);
    LettersArePlain(bytes);
    code := FormatCode(body);
    forall up | Faithful(up) ensures NormalizePairingCode(up, code) == Some(code) {
      PairingCodeIsFixed(up, body);
    }
  }

  method GenerateDropCode(bytes: seq<nat>, group: bool) returns (code: string)
    requires |bytes| == DROP_LENGTH
    ensures code == DropCode(Letters(bytes), group)
    ensures forall up :: Faithful(up) ==>
      (NormalizeDropCode(up, code) == Some(code) <==> (group || !("GRP" <= Letters(bytes))))
  {
    var body := Spell(bytes);
    LettersArePlain(bytes);
    code := DropCode(body, group);
    forall up | Faithful(up)
      ensures NormalizeDropCode(up, code) == Some(code) <==> (group || !("GRP" <= body))
    {
      DropCodeIsFixed(up, body, group);
    }
  }

  method GenerateTunnelCode(bytes: seq<nat>) returns (code: string)
    requires |bytes| == DROP_LENGTH
    ensures code == TunnelCode(Letters(bytes))
    ensures forall up :: Faithful(up) ==> NormalizeTunnelCode(up, code) == Some(code)
  {
    var body := Spell(bytes);
    LettersArePlain(bytes);
    code := TunnelCode(body);
    forall up | Faithful(up) ensures NormalizeTunnelCode(up, code) == Some(code) {
      TunnelCodeIsFixed(up, body);
    }
  }

  // ─── Cleaning a printed code gives back its letters ───────────────────────

  predicate Printed(s: string) {
    forall c :: c in s ==> Plain(c) || c == '-'
  }

  lemma {:induction false} CleanPrinted(up: Upper, s: string)
    requires Faithful(up) && Printed(s)
    ensures Keep(UpperAll(up, s)) == Keep(s)
  {
    if s == "" {
    } else {
      CleanPrinted(up, s[1..]);
      var c, rest := s[0], UpperAll(up, s[1..]);
      assert c in s && AsciiUpper(c) == c;
      assert ([c] + rest)[1..] == rest;
    }
  }

  lemma Regroup(a: string, b: string, c: string)
    ensures a + (b + c) == (a + b) + c
  {
  }

  lemma {:induction false} KeepConcat(a: string, b: string)
    ensures Keep(a + b) == Keep(a) + Keep(b)
  {
    if a == "" {
      assert a + b == b;
    } else {
      var c, rest, s := a[0], a[1..], a + b;
      assert s[0] == c && s[1..] == rest + b;
      KeepConcat(rest, b);
      Regroup(KeepOne(c), Keep(rest), Keep(b));
    }
  }

  lemma {:induction false} KeepPlain(s: string)
    requires AllPlain(s)
    ensures Keep(s) == s
  {
    if s == "" {
    } else {
      assert s[0] in s;
      KeepPlain(s[1..]);
    }
  }

  lemma {:induction false} KeepIsPlain(s: string)
    ensures AllPlain(Keep(s))
  {
    if s == "" {
    } else {
      KeepIsPlain(s[1..]);
    }
  }

  lemma KeepDashed(a: string, b: string)
    requires AllPlain(a)
    ensures Keep(a + Dash(b)) == a + Keep(b)
  {
    KeepConcat(a, Dash(b));
    KeepPlain(a);
    assert Dash(b)[1..] == b && KeepOne('-') == "";
    assert "" + Keep(b) == Keep(b);
  }

  lemma CleanOfPrinted(up: Upper, s: string)
    requires Faithful(up) && Printed(s) && s != ""
    ensures Clean(up, s) == Keep(s)
  {
    assert s[0] in s && s[|s| - 1] in s;
    assert TrimLeft(s) == s && TrimRight(s) == s;
    CleanPrinted(up, s);
  }

  lemma CleanPairing(up: Upper, body: string)
    requires Faithful(up) && |body| == CODE_LENGTH && AllPlain(body)
    ensures Clean(up, PairingCode(body)) == "MD" + body
  {
    hide Clean, Keep, Faithful;
    var a, b, c, d := body[..4], body[4..8], body[8..12], body[12..];
    var tail := FourGroups(body);
    CleanOfPrinted(up, "MD" + Dash(tail));
    KeepDashed("MD", tail);
    KeepFourGroups(a, b, c, d);
    assert body == a + (b + (c + d));
  }

  lemma KeepFourGroups(a: string, b: string, c: string, d: string)
    requires AllPlain(a) && AllPlain(b) && AllPlain(c) && AllPlain(d)
    ensures Keep(a + Dash(b + Dash(c + Dash(d)))) == a + (b + (c + d))
  {
    KeepPlain(d);
    KeepDashed(c, d);
    KeepDashed(b, c + Dash(d));
    KeepDashed(a, b + Dash(c + Dash(d)));
  }

  lemma KeepTwoGroups(body: string)
    requires |body| == DROP_LENGTH && AllPlain(body)
    ensures Keep(TwoGroups(body)) == body
  {
    var a, b := body[..4], body[4..];
    KeepDashed(a, b);
    KeepPlain(b);
    assert body == a + b;
  }

  lemma CleanGroupDrop(up: Upper, body: string)
    requires Faithful(up) && |body| == DROP_LENGTH && AllPlain(body)
    ensures Clean(up, DropCode(body, true)) == "DROPGRP" + body
  {
    var two := TwoGroups(body);
    var tail := "GRP" + Dash(two);
    CleanOfPrinted(up, "DROP" + Dash(tail));
    KeepDashed("DROP", tail);
    KeepDashed("GRP", two);
    KeepTwoGroups(body);
  }

  lemma CleanDrop(up: Upper, body: string)
    requires Faithful(up) && |body| == DROP_LENGTH && AllPlain(body)
    ensures Clean(up, DropCode(body, false)) == "DROP" + body
  {
    var two := TwoGroups(body);
    CleanOfPrinted(up, "DROP" + Dash(two));
    KeepDashed("DROP", two);
    KeepTwoGroups(body);
  }

  lemma CleanTunnel(up: Upper, body: string)
    requires Faithful(up) && |body| == DROP_LENGTH && AllPlain(body)
    ensures Clean(up, TunnelCode(body)) == "TUNNEL" + body
  {
    KeepTwoGroups(body);
    CleanOfPrinted(up, TunnelCode(body));
    KeepDashed("TUNNEL", TwoGroups(body));
  }

  // ─── Fixed points, idempotence ────────────────────────────────────────────

  lemma CleanIsPlain(up: Upper, raw: string)
    ensures AllPlain(Clean(up, raw))
  {
    KeepIsPlain(UpperAll(up, TrimRight(TrimLeft(raw))));
  }

  lemma PairingCodeIsFixed(up: Upper, body: string)
    requires Faithful(up) && |body| == CODE_LENGTH && AllPlain(body)
    ensures NormalizePairingCode(up, PairingCode(body)) == Some(PairingCode(body))
  {
    CleanPairing(up, body);
    assert ("MD" + body)[2..] == body;
  }

  /** A printed drop code is read back unchanged, except an individual code whose letters
      begin with GRP: that one is refused. */
  lemma DropCodeIsFixed(up: Upper, body: string, group: bool)
    requires Faithful(up) && |body| == DROP_LENGTH && AllPlain(body)
    ensures NormalizeDropCode(up, DropCode(body, group)) ==
            if group || !("GRP" <= body) then Some(DropCode(body, group)) else None
  {
    hide Clean, DropCode;
    var clean := Clean(up, DropCode(body, group));
    if group {
      CleanGroupDrop(up, body);
      assert clean[7..] == body;
    } else {
      CleanDrop(up, body);
      assert clean[4..] == body;
      assert "GRP" <= body <==> "DROPGRP" <= clean by {
        assert clean == "DROP" + body;
        assert clean[4] == body[0] && clean[5] == body[1] && clean[6] == body[2];
      }
      assert clean[0] != 'G';
    }
  }

  lemma TunnelCodeIsFixed(up: Upper, body: string)
    requires Faithful(up) && |body| == DROP_LENGTH && AllPlain(body)
    ensures NormalizeTunnelCode(up, TunnelCode(body)) == Some(TunnelCode(body))
  {
    CleanTunnel(up, body);
    assert ("TUNNEL" + body)[6..] == body;
  }

  /** Every result has the canonical shape and normalizing it again changes nothing. */
  lemma PairingNormalizerIdempotent(up: Upper, raw: string)
    requires Faithful(up) && NormalizePairingCode(up, raw).Some?
    ensures var code := NormalizePairingCode(up, raw).value;
            && NormalizePairingCode(up, code) == Some(code)
            && exists body :: |body| == CODE_LENGTH && AllPlain(body) && code == PairingCode(body)
  {
    var body := Strip("MD", Clean(up, raw));
    CleanIsPlain(up, raw);
    PairingCodeIsFixed(up, body);
  }

  lemma DropNormalizerIdempotent(up: Upper, raw: string)
    requires Faithful(up) && NormalizeDropCode(up, raw).Some?
    ensures var code := NormalizeDropCode(up, raw).value;
            && NormalizeDropCode(up, code) == Some(code)
            && exists body, group :: |body| == DROP_LENGTH && AllPlain(body) && code == DropCode(body, group)
  {
    var clean := Clean(up, raw);
    var group := "DROPGRP" <= clean || "GRP" <= clean;
    var body := if "DROPGRP" <= clean then clean[7..] else if "GRP" <= clean then clean[3..] else Strip("DROP", clean);
    CleanIsPlain(up, raw);
    assert group || !("GRP" <= body);
    DropCodeIsFixed(up, body, group);
  }

  lemma TunnelNormalizerIdempotent(up: Upper, raw: string)
    requires Faithful(up) && NormalizeTunnelCode(up, raw).Some?
    ensures var code := NormalizeTunnelCode(up, raw).value;
            && NormalizeTunnelCode(up, code) == Some(code)
            && exists body :: |body| == DROP_LENGTH && AllPlain(body) && code == TunnelCode(body)
  {
    var body := Strip("TUNNEL", Clean(up, raw));
    CleanIsPlain(up, raw);
    TunnelCodeIsFixed(up, body);
  }

  /** Codes with different letters print differently, and the printed code of one is never
      read as the other. */
  lemma PrintedCodesApart(up: Upper, a: string, b: string)
    requires Faithful(up) && |a| == |b| == CODE_LENGTH && AllPlain(a) && AllPlain(b)
    ensures NormalizePairingCode(up, PairingCode(a)) == Some(PairingCode(b)) <==> a == b
  {
    PairingCodeIsFixed(up, a);
    CleanPairing(up, a);
    CleanPairing(up, b);
    assert ("MD" + a)[2..] == a && ("MD" + b)[2..] == b;
  }

  /** Codes are compared by their letters alone: an input names a code exactly if it cleans
      to the code's letters, with or without MD in front. */
  lemma PairingNormalizerExact(up: Upper, raw: string, body: string)
    requires Faithful(up) && |body| == CODE_LENGTH && AllPlain(body)
    ensures NormalizePairingCode(up, raw) == Some(PairingCode(body))
       <==> Clean(up, raw) == "MD" + body || (Clean(up, raw) == body && !("MD" <= body))
  {
    var clean := Clean(up, raw);
    var got := Strip("MD", clean);
    CleanIsPlain(up, raw);
    if "MD" <= clean {
      assert clean == "MD" + clean[2..];
    }
    if |got| == CODE_LENGTH && PairingCode(got) == PairingCode(body) {
      CleanPairing(up, got);
      CleanPairing(up, body);
      assert ("MD" + got)[2..] == got && ("MD" + body)[2..] == body;
    }
    assert ("MD" + body)[2..] == body;
  }

  /** The generator can print a share code that the parser then refuses: exactly the one in
      32768 whose first three letters come out as GRP. */
  lemma DropCodeRefused(up: Upper, bytes: seq<nat>)
    requires Faithful(up) && |bytes| == DROP_LENGTH
    ensures NormalizeDropCode(up, DropCode(Letters(bytes), false)) == None
       <==> bytes[0] % 32 == 6 && bytes[1] % 32 == 15 && bytes[2] % 32 == 13
  {
    var body := Letters(bytes);
    LettersArePlain(bytes);
    DropCodeIsFixed(up, body, false);
    BeginsWithGrp(body);
    hide Letter, AllPlain, NormalizeDropCode, DropCode;
    WhichLetter(bytes[0]);
    WhichLetter(bytes[1]);
    WhichLetter(bytes[2]);
  }

  lemma BeginsWithGrp(s: string)
    requires |s| >= 3
    ensures "GRP" <= s <==> s[0] == 'G' && s[1] == 'R' && s[2] == 'P'
  {
  }

  lemma WhichLetter(b: nat)
    ensures Letter(b) == 'G' <==> b % 32 == 6
    ensures Letter(b) == 'R' <==> b % 32 == 15
    ensures Letter(b) == 'P' <==> b % 32 == 13
  {
  }

  // DROP-GRPA-BCDE
  lemma RefusedDropCode(up: Upper)
    requires Faithful(up)
    ensures NormalizeDropCode(up, DropCode("GRPABCDE", false)) == None
  {
    DropCodeIsFixed(up, "GRPABCDE", false);
  }
}
