/**
 * The two text helpers of the voice-spelling step (veronica.py): the phonetic
 * read-back of an email address (the ICAO/NATO spelling alphabet, with the
 * table's own spellings "Juliet" and "X-ray") and the normalizer that turns
 * speech-recognizer text such as "brian at yahoo dot com" into an address;
 * plus the loose address-shape check the spelling handler applies.
 */
module Readback {

  import opened Wrappers
  import opened Strings

  // ---------------------------------------------------------------- read-back

  /** The table `NATO`: the spoken word for an upper-case letter or a digit. */
  function NatoWord(c: char): (w: Option<string>)
    ensures w.Some? ==> w.value != [] && ' ' !in w.value
  {
    match c
    case 'A' => Some("Alpha")    case 'B' => Some("Bravo")   case 'C' => Some("Charlie")
    case 'D' => Some("Delta")    case 'E' => Some("Echo")    case 'F' => Some("Foxtrot")
    case 'G' => Some("Golf")     case 'H' => Some("Hotel")   case 'I' => Some("India")
    case 'J' => Some("Juliet")   case 'K' => Some("Kilo")    case 'L' => Some("Lima")
    case 'M' => Some("Mike")     case 'N' => Some("November") case 'O' => Some("Oscar")
    case 'P' => Some("Papa")     case 'Q' => Some("Quebec")  case 'R' => Some("Romeo")
    case 'S' => Some("Sierra")   case 'T' => Some("Tango")   case 'U' => Some("Uniform")
    case 'V' => Some("Victor")   case 'W' => Some("Whiskey") case 'X' => Some("X-ray")
    case 'Y' => Some("Yankee")   case 'Z' => Some("Zulu")
    case '0' => Some("Zero")     case '1' => Some("One")     case '2' => Some("Two")
    case '3' => Some("Three")    case '4' => Some("Four")    case '5' => Some("Five")
    case '6' => Some("Six")      case '7' => Some("Seven")   case '8' => Some("Eight")
    case '9' => Some("Nine")
    case _ => None
  }

  /** The spoken token for one (already lower-cased) character of the address. */
  function SpokenToken(c: char): (t: string)
    ensures t != [] && ' ' !in t <== c != ' '
  {
    if c == '@' then "at"
    else if c == '.' then "dot"
    else if c == '-' then "dash"
    else if c == '_' then "underscore"
    else match NatoWord(UpperChar(c))
      case Some(w) => w
      case None => [c]
  }

  /** One token per character of `email.lower()`, in order. */
  function NatoParts(email: string): (parts: seq<string>)
    ensures |parts| == |email|
    ensures forall i :: 0 <= i < |email| ==> parts[i] == SpokenToken(LowerChar(email[i]))
  {
    seq(|email|, i requires 0 <= i < |email| => SpokenToken(LowerChar(email[i])))
  }

  /** The read-back text: the tokens joined by single spaces. */
  function NatoSpelling(email: string): string {
    Join(" ", NatoParts(email))
  }

  /** `nato_spell_email`: appends one token per character, then joins them. */
  method NatoSpellEmail(email: string) returns (spoken: string)
    ensures spoken == NatoSpelling(email)
  {
    var lowered := Lower(email);
    var parts: seq<string> := [];
    for i := 0 to |lowered|
      invariant |parts| == i
      invariant forall k :: 0 <= k < i ==> parts[k] == SpokenToken(lowered[k])
    {
      var c := lowered[i];
      var token: string;
      if c == '@' {
        token := "at";
      } else if c == '.' {
        token := "dot";
      } else if c == '-' {
        token := "dash";
      } else if c == '_' {
        token := "underscore";
      } else {
        var word := NatoWord(UpperChar(c));
        if word.Some? {
          token := word.value;
        } else {
          token := [c];
        }
      }
      assert token == SpokenToken(c);
      TokensAppend(parts, lowered, token);
      parts := parts + [token];
    }
    assert parts == NatoParts(email);
    spoken := Join(" ", parts);
  }

  /** One more token keeps the tokens matching the characters so far. */
  lemma TokensAppend(parts: seq<string>, lowered: string, token: string)
    requires |parts| < |lowered|
    requires forall k :: 0 <= k < |parts| ==> parts[k] == SpokenToken(lowered[k])
    requires token == SpokenToken(lowered[|parts|])
    ensures forall k :: 0 <= k < |parts| + 1 ==> (parts + [token])[k] == SpokenToken(lowered[k])
  {
  }

  /** Splitting a piece that holds no separator, followed by the separator, peels that piece off. */
  lemma {:induction false} SplitOnPeel(p: string, c: char, rest: string)
    requires c !in p
    ensures SplitOn(p + [c] + rest, c) == [p] + SplitOn(rest, c)
    decreases |p|
  {
    if p == [] {
      assert p + [c] + rest == [c] + rest;
      assert ([c] + rest)[1..] == rest;
    } else {
      SplitOnPeel(p[1..], c, rest);
      assert (p + [c] + rest)[1..] == p[1..] + [c] + rest;
      assert (p + [c] + rest)[0] == p[0] && p[0] != c;
      assert [p[0]] + p[1..] == p;
    }
  }

  /** Splitting a join on its (absent-from-the-parts) separator gives the parts back. */
  lemma {:induction false} SplitJoin(parts: seq<string>, c: char)
    requires parts != []
    requires forall k :: 0 <= k < |parts| ==> c !in parts[k]
    ensures SplitOn(Join([c], parts), c) == parts
    decreases |parts|
  {
    if |parts| == 1 {
      SplitOnNone(parts[0], c);
    } else {
      SplitJoin(parts[1..], c);
      SplitOnPeel(parts[0], c, Join([c], parts[1..]));
    }
  }

  lemma {:induction false} SplitOnNone(p: string, c: char)
    requires c !in p
    ensures SplitOn(p, c) == [p]
    decreases |p|
  {
    if p != [] {
      SplitOnNone(p[1..], c);
      assert [p[0]] + p[1..] == p;
    }
  }

  /**
   * The read-back of an address without spaces has exactly one space-separated
   * token per character, and token i is the spoken form of character i.
   */
  lemma NatoOneTokenPerChar(email: string)
    requires email != [] && ' ' !in email
    ensures SplitOn(NatoSpelling(email), ' ') == NatoParts(email)
    ensures |SplitOn(NatoSpelling(email), ' ')| == |email|
  {
    var parts := NatoParts(email);
    forall k | 0 <= k < |parts| ensures ' ' !in parts[k] {
      assert email[k] in email;
      assert LowerChar(email[k]) != ' ';
    }
    SplitJoin(parts, ' ');
  }

  // ------------------------------------------------------------ normalization

  /** The text as the regular expressions see it: words and maximal whitespace runs. */
  datatype Piece = Word(w: string) | Gap

  predicate WellFormed(ps: seq<Piece>) {
    forall k :: 0 <= k < |ps| ==> ps[k].Word? ==> NoSpace(ps[k].w)
  }

  function SkipSpaces(s: string): (r: string)
    ensures |r| <= |s| && (s != [] && IsSpace(s[0]) ==> |r| < |s|)
  {
    if s != [] && IsSpace(s[0]) then SkipSpaces(s[1..]) else s
  }

  /** Cuts a text into maximal whitespace-free words and the whitespace runs between them. */
  function Pieces(s: string): (ps: seq<Piece>)
    ensures WellFormed(ps)
    decreases |s|
  {
    if s == [] then []
    else if IsSpace(s[0]) then [Gap] + Pieces(SkipSpaces(s))
    else
      var n := WordEnd(s);
      [Word(s[..n])] + Pieces(s[n..])
  }

  const Fillers: set<string> := {"um", "uh", "like", "so"}

  /** Joins neighbouring whitespace runs into one. */
  function MergeGaps(ps: seq<Piece>): (r: seq<Piece>)
    requires WellFormed(ps)
    ensures WellFormed(r)
  {
    if ps == [] then []
    else if |ps| >= 2 && ps[0] == Gap && ps[1] == Gap then MergeGaps(ps[1..])
    else [ps[0]] + MergeGaps(ps[1..])
  }

  /** Each filler word becomes a gap; every other piece stays where it is. */
  function FillersToGaps(ps: seq<Piece>): (r: seq<Piece>)
    requires WellFormed(ps)
    ensures WellFormed(r)
    ensures |r| == |ps|
    ensures forall k :: 0 <= k < |ps| ==> r[k] == if ps[k].Word? && ps[k].w in Fillers then Gap else ps[k]
  {
    if ps == [] then []
    else [if ps[0].Word? && ps[0].w in Fillers then Gap else ps[0]] + FillersToGaps(ps[1..])
  }

  /** `\b(um|uh|like|so)\b` -> '': a filler word disappears, the whitespace around it stays. */
  function DropFillers(ps: seq<Piece>): (r: seq<Piece>)
    requires WellFormed(ps)
    ensures WellFormed(r)
  {
    MergeGaps(FillersToGaps(ps))
  }

  /** `\bat\s*sign\b` -> '@'. */
  function AtSign(ps: seq<Piece>): (r: seq<Piece>)
    requires WellFormed(ps)
    ensures WellFormed(r)
  {
    if ps == [] then []
    else if ps[0] == Word("atsign") then [Word("@")] + AtSign(ps[1..])
    else if |ps| >= 3 && ps[0] == Word("at") && ps[1] == Gap && ps[2] == Word("sign") then [Word("@")] + AtSign(ps[3..])
    else [ps[0]] + AtSign(ps[1..])
  }

  /** `\s+at\s+` -> '@': the whitespace on both sides is consumed with the word. */
  function SpacedAt(ps: seq<Piece>): (r: seq<Piece>)
    requires WellFormed(ps)
    ensures WellFormed(r)
  {
    if ps == [] then []
    else if |ps| >= 3 && ps[0] == Gap && ps[1] == Word("at") && ps[2] == Gap then [Word("@")] + SpacedAt(ps[3..])
    else [ps[0]] + SpacedAt(ps[1..])
  }

  /** `\b<kw>\s+` -> '.': the keyword and the whitespace after it become a dot. */
  function DotBefore(ps: seq<Piece>, kw: string): (r: seq<Piece>)
    requires WellFormed(ps)
    ensures WellFormed(r)
  {
    if ps == [] then []
    else if |ps| >= 2 && ps[0] == Word(kw) && ps[1] == Gap then [Word(".")] + DotBefore(ps[2..], kw)
    else [ps[0]] + DotBefore(ps[1..], kw)
  }

  /** `\b<kw>\b` -> `sym`. */
  function Rename(ps: seq<Piece>, kw: string, sym: string): (r: seq<Piece>)
    requires WellFormed(ps) && NoSpace(sym)
    ensures WellFormed(r)
    ensures |r| == |ps|
    ensures forall k :: 0 <= k < |ps| ==> r[k] == if ps[k] == Word(kw) then Word(sym) else ps[k]
  {
    if ps == [] then []
    else [if ps[0] == Word(kw) then Word(sym) else ps[0]] + Rename(ps[1..], kw, sym)
  }

  /** `\s+` -> '': the words, with every whitespace run removed. */
  function Render(ps: seq<Piece>): (s: string)
    requires WellFormed(ps)
    ensures NoSpace(s)
  {
    if ps == [] then ""
    else (if ps[0].Word? then ps[0].w else "") + Render(ps[1..])
  }

  /**
   * `normalize_spoken_email`: lower-case and strip, then the eight substitutions
   * in the code's order, then drop all whitespace.  The result never contains
   * whitespace.
   */
  function NormalizeSpokenEmail(spoken: string): (email: string)
    ensures NoSpace(email)
  {
    var text := Pieces(Strip(Lower(spoken)));
    var text := DropFillers(text);
    var text := AtSign(text);
    var text := SpacedAt(text);
    var text := DotBefore(text, "dot");
    var text := DotBefore(text, "period");
    var text := Rename(text, "dash", "-");
    var text := Rename(text, "hyphen", "-");
    var text := Rename(text, "underscore", "_");
    Render(text)
  }

  /** A word followed by whitespace or the end is one piece. */
  lemma {:induction false} WordEndOf(w: string, rest: string)
    requires NoSpace(w) && (rest == [] || IsSpace(rest[0]))
    ensures WordEnd(w + rest) == |w|
    decreases |w|
  {
    if w != [] {
      assert (w + rest)[1..] == w[1..] + rest;
      WordEndOf(w[1..], rest);
    }
  }

  lemma PiecesWord(w: string, rest: string)
    requires w != [] && NoSpace(w) && (rest == [] || IsSpace(rest[0]))
    ensures Pieces(w + rest) == [Word(w)] + Pieces(rest)
  {
    WordEndOf(w, rest);
    assert (w + rest)[..|w|] == w && (w + rest)[|w|..] == rest;
  }

  lemma PiecesSpace(rest: string)
    requires rest != [] && !IsSpace(rest[0])
    ensures Pieces(" " + rest) == [Gap] + Pieces(rest)
  {
    assert (" " + rest)[1..] == rest;
    assert SkipSpaces(" " + rest) == rest;
  }

  /** With no gap next to a gap, merging changes nothing. */
  lemma {:induction false} MergeGapsIdle(ps: seq<Piece>)
    requires WellFormed(ps)
    requires forall k :: 0 <= k < |ps| - 1 ==> !(ps[k] == Gap && ps[k + 1] == Gap)
    ensures MergeGaps(ps) == ps
    decreases |ps|
  {
    if ps != [] {
      MergeGapsIdle(ps[1..]);
    }
  }

  /** A transcript without the word "sign" or "atsign" has no spoken at sign. */
  lemma {:induction false} AtSignIdle(ps: seq<Piece>)
    requires WellFormed(ps)
    requires Word("sign") !in ps && Word("atsign") !in ps
    ensures AtSign(ps) == ps
    decreases |ps|
  {
    if ps != [] {
      assert |ps| >= 3 ==> ps[2] in ps;
      AtSignIdle(ps[1..]);
    }
  }

  /** A transcript without the word "at" is left alone by the spaced-at rule. */
  lemma {:induction false} SpacedAtIdle(ps: seq<Piece>)
    requires WellFormed(ps) && Word("at") !in ps
    ensures SpacedAt(ps) == ps
    decreases |ps|
  {
    if ps != [] {
      assert |ps| >= 2 ==> ps[1] in ps;
      SpacedAtIdle(ps[1..]);
    }
  }

  /** A transcript without the keyword is left alone by its dot rule. */
  lemma {:induction false} DotBeforeIdle(ps: seq<Piece>, kw: string)
    requires WellFormed(ps) && Word(kw) !in ps
    ensures DotBefore(ps, kw) == ps
    decreases |ps|
  {
    if ps != [] {
      DotBeforeIdle(ps[1..], kw);
    }
  }

  /** The words the normalizer rewrites or drops. */
  const Keywords: set<string> := Fillers + {"at", "sign", "atsign", "dot", "period", "dash", "hyphen", "underscore"}

  /** A lower-case word with no whitespace that the normalizer leaves alone. */
  predicate PlainWord(w: string) {
    w != [] && NoSpace(w) && w !in Keywords && forall i :: 0 <= i < |w| ==> !('A' <= w[i] <= 'Z')
  }

  /** Text without capitals is its own lower-case form. */
  lemma LowerIdle(s: string)
    requires forall i :: 0 <= i < |s| ==> !('A' <= s[i] <= 'Z')
    ensures Lower(s) == s
  {
  }

  lemma Assoc(a: string, b: string, c: string)
    ensures (a + b) + c == a + (b + c)
  {
  }

  /** A keyword between single spaces, in front of more text. */
  lemma Spaced(w: string, y: string)
    ensures (" " + w + " ") + y == " " + (w + (" " + y))
  {
    Assoc(" " + w, " ", y);
    Assoc(" ", w, " " + y);
  }

  /** "user at host dot tld", regrouped from the front. */
  lemma SpokenFromFront(user: string, host: string, tld: string)
    ensures user + " at " + host + " dot " + tld
         == user + (" " + ("at" + (" " + (host + (" " + ("dot" + (" " + tld)))))))
  {
    Assoc(user + " at " + host, " dot ", tld);
    Assoc(user + " at ", host, " dot " + tld);
    Assoc(user, " at ", host + (" dot " + tld));
    assert " dot " == " " + "dot" + " ";
    Spaced("dot", tld);
    assert " at " == " " + "at" + " ";
    Spaced("at", host + (" " + ("dot" + (" " + tld))));
  }

  /** The pieces of "user at host dot tld". */
  lemma SpokenPieces(user: string, host: string, tld: string)
    requires user != [] && host != [] && tld != [] && NoSpace(user) && NoSpace(host) && NoSpace(tld)
    ensures Pieces(user + " at " + host + " dot " + tld)
         == [Word(user), Gap, Word("at"), Gap, Word(host), Gap, Word("dot"), Gap, Word(tld)]
  {
    var s3 := "dot" + (" " + tld);
    var s2 := host + (" " + s3);
    var s1 := "at" + (" " + s2);
    assert NoSpace("at") && NoSpace("dot");
    PiecesAfterSpace(tld, "");
    assert tld + "" == tld;
    PiecesAfterSpace("dot", " " + tld);
    PiecesAfterSpace(host, " " + s3);
    PiecesAfterSpace("at", " " + s2);
    PiecesWord(user, " " + s1);
    SpokenFromFront(user, host, tld);
    SpokenList(Word(user), Word(host), Word(tld));
  }

  /** A space, then a word ending at whitespace or the end. */
  lemma PiecesAfterSpace(w: string, rest: string)
    requires w != [] && NoSpace(w) && (rest == [] || IsSpace(rest[0]))
    ensures Pieces(" " + (w + rest)) == [Gap, Word(w)] + Pieces(rest)
  {
    HeadNotSpace(w, rest);
    PiecesWord(w, rest);
    PiecesSpace(w + rest);
    GapWord(w, Pieces(rest));
  }

  lemma HeadNotSpace(w: string, rest: string)
    requires w != [] && NoSpace(w)
    ensures w + rest != [] && !IsSpace((w + rest)[0])
  {
    assert (w + rest)[0] == w[0];
  }

  lemma GapWord(w: string, ps: seq<Piece>)
    ensures [Gap] + ([Word(w)] + ps) == [Gap, Word(w)] + ps
  {
  }

  lemma SpokenList(u: Piece, h: Piece, t: Piece)
    ensures [u] + ([Gap, Word("at")] + ([Gap, h] + ([Gap, Word("dot")] + ([Gap, t] + []))))
         == [u, Gap, Word("at"), Gap, h, Gap, Word("dot"), Gap, t]
  {
  }

  /**
   * A transcript "user at host dot tld" of plain lower-case words becomes
   * the address `user@host.tld`.
   */
  lemma NormalizeSpokenAddress(user: string, host: string, tld: string)
    requires PlainWord(user) && PlainWord(host) && PlainWord(tld)
    ensures NormalizeSpokenEmail(user + " at " + host + " dot " + tld) == user + "@" + host + "." + tld
  {
    var spoken := user + " at " + host + " dot " + tld;
    PlainFacts(user);
    PlainFacts(host);
    PlainFacts(tld);
    assert Strip(Lower(spoken)) == spoken by {
      SpokenStripped(user, host, tld);
    }
    SpokenPieces(user, host, tld);
    SpokenRewriteFront(user, host, tld);
    SpokenRewriteBack(user, host, tld);
  }

  /** What a plain word is not. */
  lemma PlainFacts(w: string)
    requires PlainWord(w)
    ensures w != [] && NoSpace(w) && NoCapitals(w) && w !in Fillers
    ensures w != "at" && w != "sign" && w != "atsign" && w != "dot" && w != "period"
    ensures w != "dash" && w != "hyphen" && w != "underscore"
  {
  }

  lemma NoCapitalsAppend(a: string, b: string)
    requires NoCapitals(a) && NoCapitals(b)
    ensures NoCapitals(a + b)
  {
    forall i | 0 <= i < |a + b| ensures !('A' <= (a + b)[i] <= 'Z') {
      if i >= |a| {
        assert (a + b)[i] == b[i - |a|];
      }
    }
  }

  /** Lower-case text with a word at each end is left alone by lowering and stripping. */
  lemma StripLowerIdle(s: string)
    requires s != [] && !IsSpace(s[0]) && !IsSpace(s[|s| - 1]) && NoCapitals(s)
    ensures Strip(Lower(s)) == s
  {
    LowerIdle(s);
    assert StripLeft(s) == s;
    assert StripRight(s) == s;
  }

  lemma SpokenStripped(user: string, host: string, tld: string)
    requires user != [] && tld != [] && NoSpace(user) && NoSpace(tld)
    requires NoCapitals(user) && NoCapitals(host) && NoCapitals(tld)
    ensures Strip(Lower(user + " at " + host + " dot " + tld)) == user + " at " + host + " dot " + tld
  {
    SpokenNoCapitals(user, host, tld);
    SpokenEnds(user, host, tld);
    StripLowerIdle(user + " at " + host + " dot " + tld);
  }

  lemma SpokenNoCapitals(user: string, host: string, tld: string)
    requires NoCapitals(user) && NoCapitals(host) && NoCapitals(tld)
    ensures NoCapitals(user + " at " + host + " dot " + tld)
  {
    assert NoCapitals(" at ") && NoCapitals(" dot ");
    NoCapitalsAppend(user, " at ");
    NoCapitalsAppend(user + " at ", host);
    NoCapitalsAppend(user + " at " + host, " dot ");
    NoCapitalsAppend(user + " at " + host + " dot ", tld);
  }

  lemma SpokenEnds(user: string, host: string, tld: string)
    requires user != [] && tld != [] && NoSpace(user) && NoSpace(tld)
    ensures var spoken := user + " at " + host + " dot " + tld;
            !IsSpace(spoken[0]) && !IsSpace(spoken[|spoken| - 1])
  {
    var spoken := user + " at " + host + " dot " + tld;
    assert spoken[0] == user[0];
    assert spoken[|spoken| - 1] == tld[|tld| - 1];
  }

  /** The first three rewrites turn the spoken "at" into '@'. */
  lemma SpokenRewriteFront(u: string, h: string, t: string)
    requires NoSpace(u) && NoSpace(h) && NoSpace(t)
    requires u !in Fillers && h !in Fillers && t !in Fillers
    requires u != "sign" && u != "atsign" && h != "sign" && h != "atsign" && t != "sign" && t != "atsign"
    requires h != "at" && t != "at"
    ensures var ps := [Word(u), Gap, Word("at"), Gap, Word(h), Gap, Word("dot"), Gap, Word(t)];
            SpacedAt(AtSign(DropFillers(ps))) == [Word(u), Word("@"), Word(h), Gap, Word("dot"), Gap, Word(t)]
  {
    LiteralsWellFormed(u, h, t);
    var ps := [Word(u), Gap, Word("at"), Gap, Word(h), Gap, Word("dot"), Gap, Word(t)];
    assert DropFillers(ps) == ps by {
      FillerStep(u, h, t);
    }
    assert AtSign(ps) == ps by {
      AtStep(u, h, t);
    }
    SpacedAtStep(u, h, t);
  }

  /** The remaining rewrites turn the spoken "dot" into '.', and rendering joins the words. */
  lemma SpokenRewriteBack(u: string, h: string, t: string)
    requires NoSpace(u) && NoSpace(h) && NoSpace(t)
    requires u != "dot" && u != "period" && h != "dot" && h != "period" && t != "dot" && t != "period"
    requires u != "dash" && u != "hyphen" && u != "underscore"
    requires h != "dash" && h != "hyphen" && h != "underscore"
    requires t != "dash" && t != "hyphen" && t != "underscore"
    ensures var spaced := [Word(u), Word("@"), Word(h), Gap, Word("dot"), Gap, Word(t)];
            var text := DotBefore(DotBefore(spaced, "dot"), "period");
            Render(Rename(Rename(Rename(text, "dash", "-"), "hyphen", "-"), "underscore", "_"))
              == u + "@" + h + "." + t
  {
    LiteralsWellFormed(u, h, t);
    var spaced := [Word(u), Word("@"), Word(h), Gap, Word("dot"), Gap, Word(t)];
    var dotted := [Word(u), Word("@"), Word(h), Gap, Word("."), Word(t)];
    assert DotBefore(spaced, "dot") == dotted by {
      DotStep(u, h, t);
    }
    assert DotBefore(dotted, "period") == dotted by {
      PeriodStep(u, h, t);
    }
    assert Rename(Rename(Rename(dotted, "dash", "-"), "hyphen", "-"), "underscore", "_") == dotted by {
      RenameStep(u, h, t);
    }
    RenderStep(u, h, t);
  }

  lemma LiteralsWellFormed(u: string, h: string, t: string)
    requires NoSpace(u) && NoSpace(h) && NoSpace(t)
    ensures WellFormed([Word(u), Gap, Word("at"), Gap, Word(h), Gap, Word("dot"), Gap, Word(t)])
    ensures WellFormed([Word(u), Word("@"), Word(h), Gap, Word("dot"), Gap, Word(t)])
    ensures WellFormed([Word(u), Word("@"), Word(h), Gap, Word("."), Word(t)])
  {
    assert NoSpace("at") && NoSpace("dot") && NoSpace("@") && NoSpace(".");
  }

  lemma FillerStep(u: string, h: string, t: string)
    requires NoSpace(u) && NoSpace(h) && NoSpace(t)
    requires u !in Fillers && h !in Fillers && t !in Fillers
    ensures var ps := [Word(u), Gap, Word("at"), Gap, Word(h), Gap, Word("dot"), Gap, Word(t)];
            DropFillers(ps) == ps
  {
    var ps := [Word(u), Gap, Word("at"), Gap, Word(h), Gap, Word("dot"), Gap, Word(t)];
    LiteralsWellFormed(u, h, t);
    assert FillersToGaps(ps) == ps by {
      SpokenNoFillers(u, h, t);
      FillersIdle(ps);
    }
    assert MergeGaps(ps) == ps by {
      SpokenNoDoubleGap(u, h, t);
      MergeGapsIdle(ps);
    }
  }

  lemma SpokenNoFillers(u: string, h: string, t: string)
    requires u !in Fillers && h !in Fillers && t !in Fillers
    ensures var ps := [Word(u), Gap, Word("at"), Gap, Word(h), Gap, Word("dot"), Gap, Word(t)];
            forall k :: 0 <= k < |ps| && ps[k].Word? ==> ps[k].w !in Fillers
  {
    assert "at" !in Fillers && "dot" !in Fillers;
  }

  lemma SpokenNoDoubleGap(u: string, h: string, t: string)
    ensures var ps := [Word(u), Gap, Word("at"), Gap, Word(h), Gap, Word("dot"), Gap, Word(t)];
            forall k :: 0 <= k < |ps| - 1 ==> !(ps[k] == Gap && ps[k + 1] == Gap)
  {
  }

  /** A transcript without filler words is left alone by the filler rule. */
  lemma FillersIdle(ps: seq<Piece>)
    requires WellFormed(ps)
    requires forall k :: 0 <= k < |ps| && ps[k].Word? ==> ps[k].w !in Fillers
    ensures FillersToGaps(ps) == ps
  {
  }

  lemma AtStep(u: string, h: string, t: string)
    requires NoSpace(u) && NoSpace(h) && NoSpace(t)
    requires u != "sign" && u != "atsign" && h != "sign" && h != "atsign" && t != "sign" && t != "atsign"
    ensures var ps := [Word(u), Gap, Word("at"), Gap, Word(h), Gap, Word("dot"), Gap, Word(t)];
            AtSign(ps) == ps
  {
    LiteralsWellFormed(u, h, t);
    AtSignIdle([Word(u), Gap, Word("at"), Gap, Word(h), Gap, Word("dot"), Gap, Word(t)]);
  }

  lemma SpacedAtStep(u: string, h: string, t: string)
    requires NoSpace(u) && NoSpace(h) && NoSpace(t) && h != "at" && t != "at"
    ensures SpacedAt([Word(u), Gap, Word("at"), Gap, Word(h), Gap, Word("dot"), Gap, Word(t)])
         == [Word(u), Word("@"), Word(h), Gap, Word("dot"), Gap, Word(t)]
  {
    var tail := [Word(h), Gap, Word("dot"), Gap, Word(t)];
    TailFacts(h, t);
    SplitSpoken(Word(u), Word(h), Word(t));
    SpacedAtWord(u, [Gap, Word("at"), Gap] + tail);
    SpacedAtSkip(tail);
    SpacedAtIdle(tail);
    JoinSpaced(Word(u), Word(h), Word(t));
  }

  lemma TailFacts(h: string, t: string)
    requires NoSpace(h) && NoSpace(t) && h != "at" && t != "at"
    ensures var tail := [Word(h), Gap, Word("dot"), Gap, Word(t)];
            WellFormed(tail) && Word("at") !in tail
  {
    assert NoSpace("dot");
  }

  lemma SplitSpoken(u: Piece, h: Piece, t: Piece)
    ensures [u, Gap, Word("at"), Gap, h, Gap, Word("dot"), Gap, t]
         == [u] + ([Gap, Word("at"), Gap] + [h, Gap, Word("dot"), Gap, t])
  {
  }

  lemma JoinSpaced(u: Piece, h: Piece, t: Piece)
    ensures [u] + ([Word("@")] + [h, Gap, Word("dot"), Gap, t]) == [u, Word("@"), h, Gap, Word("dot"), Gap, t]
  {
  }

  /** A word passes the spaced-at rule unchanged. */
  lemma SpacedAtWord(w: string, rest: seq<Piece>)
    requires NoSpace(w) && WellFormed(rest)
    ensures WellFormed([Word(w)] + rest)
    ensures SpacedAt([Word(w)] + rest) == [Word(w)] + SpacedAt(rest)
  {
    assert ([Word(w)] + rest)[1..] == rest;
  }

  /** A spaced "at" becomes '@'. */
  lemma SpacedAtSkip(rest: seq<Piece>)
    requires WellFormed(rest)
    ensures WellFormed([Gap, Word("at"), Gap] + rest)
    ensures SpacedAt([Gap, Word("at"), Gap] + rest) == [Word("@")] + SpacedAt(rest)
  {
    assert ([Gap, Word("at"), Gap] + rest)[3..] == rest;
  }

  lemma DotStep(u: string, h: string, t: string)
    requires NoSpace(u) && NoSpace(h) && NoSpace(t) && u != "dot" && h != "dot" && t != "dot"
    ensures DotBefore([Word(u), Word("@"), Word(h), Gap, Word("dot"), Gap, Word(t)], "dot")
         == [Word(u), Word("@"), Word(h), Gap, Word("."), Word(t)]
  {
    var front := [Word(u), Word("@"), Word(h), Gap];
    assert WellFormed(front) && Word("dot") !in front by {
      assert NoSpace("@");
    }
    assert NoSpace("dot");
    SevenPieces(Word(u), Word(h), Word(t));
    DotBeforeAfter(front, [Word("dot"), Gap, Word(t)], "dot");
    DotBeforeSkip([Word(t)], "dot");
    assert [Word("dot"), Gap] + [Word(t)] == [Word("dot"), Gap, Word(t)];
    DotBeforeIdle([Word(t)], "dot");
    SixPieces(Word(u), Word(h), Word(t));
  }

  /** Text in front without the keyword passes the dot rule unchanged. */
  lemma {:induction false} DotBeforeAfter(front: seq<Piece>, rest: seq<Piece>, kw: string)
    requires WellFormed(front) && WellFormed(rest) && Word(kw) !in front
    ensures WellFormed(front + rest)
    ensures DotBefore(front + rest, kw) == front + DotBefore(rest, kw)
    decreases |front|
  {
    if front != [] {
      var p, f1 := front[0], front[1..];
      assert front == [p] + f1;
      assert p in front && p.Word? ==> NoSpace(p.w);
      assert WellFormed(f1) && Word(kw) !in f1 by {
        forall k | 0 <= k < |f1| ensures f1[k] == front[k + 1] && f1[k] in front {
        }
      }
      DotBeforeAfter(f1, rest, kw);
      DotBeforeCons(p, f1 + rest, kw);
      assert front + rest == [p] + (f1 + rest);
      assert [p] + (f1 + DotBefore(rest, kw)) == front + DotBefore(rest, kw);
    } else {
      assert front + rest == rest;
    }
  }

  /** The keyword and the gap after it become a dot. */
  lemma DotBeforeSkip(rest: seq<Piece>, kw: string)
    requires WellFormed(rest) && NoSpace(kw)
    ensures WellFormed([Word(kw), Gap] + rest)
    ensures DotBefore([Word(kw), Gap] + rest, kw) == [Word(".")] + DotBefore(rest, kw)
  {
    assert ([Word(kw), Gap] + rest)[2..] == rest;
  }

  lemma FourThen(u: Piece, h: Piece, tail: seq<Piece>)
    ensures [u] + ([Word("@")] + ([h] + ([Gap] + tail))) == [u, Word("@"), h, Gap] + tail
  {
  }

  lemma SevenPieces(u: Piece, h: Piece, t: Piece)
    ensures [u, Word("@"), h, Gap] + [Word("dot"), Gap, t] == [u, Word("@"), h, Gap, Word("dot"), Gap, t]
  {
  }

  lemma SixPieces(u: Piece, h: Piece, t: Piece)
    ensures [u, Word("@"), h, Gap] + [Word("."), t] == [u, Word("@"), h, Gap, Word("."), t]
  {
  }

  /** A piece other than the keyword passes the dot rule unchanged. */
  lemma DotBeforeCons(p: Piece, rest: seq<Piece>, kw: string)
    requires WellFormed(rest) && (p.Word? ==> NoSpace(p.w)) && p != Word(kw)
    ensures WellFormed([p] + rest)
    ensures DotBefore([p] + rest, kw) == [p] + DotBefore(rest, kw)
  {
    assert ([p] + rest)[1..] == rest;
  }

  lemma PeriodStep(u: string, h: string, t: string)
    requires NoSpace(u) && NoSpace(h) && NoSpace(t) && u != "period" && h != "period" && t != "period"
    ensures var dotted := [Word(u), Word("@"), Word(h), Gap, Word("."), Word(t)];
            DotBefore(dotted, "period") == dotted
  {
    DotBeforeIdle([Word(u), Word("@"), Word(h), Gap, Word("."), Word(t)], "period");
  }

  lemma RenameStep(u: string, h: string, t: string)
    requires NoSpace(u) && NoSpace(h) && NoSpace(t)
    requires u != "dash" && u != "hyphen" && u != "underscore"
    requires h != "dash" && h != "hyphen" && h != "underscore"
    requires t != "dash" && t != "hyphen" && t != "underscore"
    ensures var dotted := [Word(u), Word("@"), Word(h), Gap, Word("."), Word(t)];
            Rename(Rename(Rename(dotted, "dash", "-"), "hyphen", "-"), "underscore", "_") == dotted
  {
    var dotted := [Word(u), Word("@"), Word(h), Gap, Word("."), Word(t)];
    assert Rename(dotted, "dash", "-") == dotted by {
      NotInDotted(u, h, t, "dash");
      RenameIdle(dotted, "dash", "-");
    }
    assert Rename(dotted, "hyphen", "-") == dotted by {
      NotInDotted(u, h, t, "hyphen");
      RenameIdle(dotted, "hyphen", "-");
    }
    assert Rename(dotted, "underscore", "_") == dotted by {
      NotInDotted(u, h, t, "underscore");
      RenameIdle(dotted, "underscore", "_");
    }
  }

  lemma NotInDotted(u: string, h: string, t: string, kw: string)
    requires u != kw && h != kw && t != kw && kw != "@" && kw != "."
    ensures Word(kw) !in [Word(u), Word("@"), Word(h), Gap, Word("."), Word(t)]
  {
  }

  /** A transcript without the keyword is left alone by its rename. */
  lemma RenameIdle(ps: seq<Piece>, kw: string, sym: string)
    requires WellFormed(ps) && NoSpace(sym) && Word(kw) !in ps
    ensures Rename(ps, kw, sym) == ps
  {
    var r := Rename(ps, kw, sym);
    forall k | 0 <= k < |ps| ensures r[k] == ps[k] {
      assert ps[k] in ps;
    }
  }

  lemma RenderStep(u: string, h: string, t: string)
    requires NoSpace(u) && NoSpace(h) && NoSpace(t)
    ensures Render([Word(u), Word("@"), Word(h), Gap, Word("."), Word(t)]) == u + "@" + h + "." + t
  {
    LiteralsWellFormed(u, h, t);
    var s4 := [Word("."), Word(t)];
    var s3 := [Gap] + s4;
    var s2 := [Word(h)] + s3;
    var s1 := [Word("@")] + s2;
    assert Render(s4) == "." + t by {
      RenderCons(Word(t), []);
      RenderCons(Word("."), [Word(t)]);
      assert [Word(".")] + [Word(t)] == s4;
      assert t + "" == t;
    }
    RenderCons(Gap, s4);
    assert "" + ("." + t) == "." + t;
    RenderCons(Word(h), s3);
    RenderCons(Word("@"), s2);
    RenderCons(Word(u), s1);
    FourThen(Word(u), Word(h), s4);
    SixPieces(Word(u), Word(h), Word(t));
    assert u + ("@" + (h + ("." + t))) == u + "@" + h + "." + t by {
      Assoc(u + "@", h, "." + t);
      Assoc(u, "@", h + ("." + t));
      Assoc(u + "@" + h, ".", t);
    }
  }

  lemma RenderCons(p: Piece, rest: seq<Piece>)
    requires WellFormed(rest) && (p.Word? ==> NoSpace(p.w))
    ensures WellFormed([p] + rest)
    ensures Render([p] + rest) == (if p.Word? then p.w else "") + Render(rest)
  {
    assert ([p] + rest)[1..] == rest;
  }

  // ------------------------------------------------------------- shape check

  /** A character of `[^@\s]`. */
  predicate PlainChar(c: char) {
    c != '@' && !IsSpace(c)
  }

  predicate AllPlain(s: string) {
    forall i :: 0 <= i < |s| ==> PlainChar(s[i])
  }

  /** `[^@\s]+\.[^@\s]+`: plain characters with a dot that is neither first nor last. */
  predicate DomainShape(d: string) {
    AllPlain(d) && exists k :: 0 < k < |d| - 1 && d[k] == '.'
  }

  /** `re.match(r"^[^@\s]+@[^@\s]+\.[^@\s]+$", s)` on a text without whitespace. */
  predicate EmailShape(s: string) {
    exists a :: 0 < a < |s| && s[a] == '@' && AllPlain(s[..a]) && DomainShape(s[a + 1..])
  }

  /** A well-formed address has exactly one '@', and a non-empty local part before it. */
  lemma EmailShapeOneAt(s: string, i: int, j: int)
    requires EmailShape(s)
    requires 0 <= i < |s| && 0 <= j < |s| && s[i] == '@' && s[j] == '@'
    ensures i == j && i > 0
  {
    var a :| 0 < a < |s| && s[a] == '@' && AllPlain(s[..a]) && DomainShape(s[a + 1..]);
    OnlyAt(s, a, i);
    OnlyAt(s, a, j);
  }

  lemma OnlyAt(s: string, a: int, i: int)
    requires 0 < a < |s| && AllPlain(s[..a]) && AllPlain(s[a + 1..])
    requires 0 <= i < |s| && s[i] == '@'
    ensures i == a
  {
  }
}
