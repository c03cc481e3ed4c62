/** The provider-id decoder of the scraper (`decodeProviderId`): an optional `--` marker,
    a cut into two-character pairs, a fixed substitution table per pair, concatenation,
    and the rewrite of the first `/clock` into `/clock.json`. */
module ProviderId {
  import opened Wrappers
  import opened Strings

  /** Marks an encoded source url. */
  const Marker := "--"
  const ClockPath := "/clock"
  const ClockJsonPath := "/clock.json"

  /** The characters JavaScript's regular-expression `.` does not match. */
  predicate IsLineTerminator(c: char)
  {
    c == '\n' || c == '\r' || c == '\U{2028}' || c == '\U{2029}'
  }

  /** `cleanId.match(/.{2}/g) || []`: the left-to-right, non-overlapping matches of two
      characters that are not line terminators; a position where no match starts is skipped. */
  function HexPairs(s: string): (r: seq<string>)
    ensures |r| <= |s| / 2
    ensures forall k :: 0 <= k < |r| ==> |r[k]| == 2
    decreases |s|
  {
    if |s| < 2 then []
    else if !IsLineTerminator(s[0]) && !IsLineTerminator(s[1]) then [s[..2]] + HexPairs(s[2..])
    else HexPairs(s[1..])
  }

  /** The 84-case `switch`; `None` is its `default: return ''`. */
  function Substitute(hi: char, lo: char): Option<char>
  {
    match hi
    case '7' => (
      match lo
      case '9' => Some('A')
      case 'a' => Some('B')
      case 'b' => Some('C')
      case 'c' => Some('D')
      case 'd' => Some('E')
      case 'e' => Some('F')
      case 'f' => Some('G')
      case '0' => Some('H')
      case '1' => Some('I')
      case '2' => Some('J')
      case '3' => Some('K')
      case '4' => Some('L')
      case '5' => Some('M')
      case '6' => Some('N')
      case '7' => Some('O')
      case '8' => Some('@')
      case _ => None)
    case '6' => (
      match lo
      case '8' => Some('P')
      case '9' => Some('Q')
      case 'a' => Some('R')
      case 'b' => Some('S')
      case 'c' => Some('T')
      case 'd' => Some('U')
      case 'e' => Some('V')
      case 'f' => Some('W')
      case '0' => Some('X')
      case '1' => Some('Y')
      case '2' => Some('Z')
      case '7' => Some('_')
      case '3' => Some('[')
      case '5' => Some(']')
      case _ => None)
    case '5' => (
      match lo
      case '9' => Some('a')
      case 'a' => Some('b')
      case 'b' => Some('c')
      case 'c' => Some('d')
      case 'd' => Some('e')
      case 'e' => Some('f')
      case 'f' => Some('g')
      case '0' => Some('h')
      case '1' => Some('i')
      case '2' => Some('j')
      case '3' => Some('k')
      case '4' => Some('l')
      case '5' => Some('m')
      case '6' => Some('n')
      case '7' => Some('o')
      case _ => None)
    case '4' => (
      match lo
      case '8' => Some('p')
      case '9' => Some('q')
      case 'a' => Some('r')
      case 'b' => Some('s')
      case 'c' => Some('t')
      case 'd' => Some('u')
      case 'e' => Some('v')
      case 'f' => Some('w')
      case '0' => Some('x')
      case '1' => Some('y')
      case '2' => Some('z')
      case '6' => Some('~')
      case _ => None)
    case '0' => (
      match lo
      case '8' => Some('0')
      case '9' => Some('1')
      case 'a' => Some('2')
      case 'b' => Some('3')
      case 'c' => Some('4')
      case 'd' => Some('5')
      case 'e' => Some('6')
      case 'f' => Some('7')
      case '0' => Some('8')
      case '1' => Some('9')
      case '2' => Some(':')
      case '7' => Some('?')
      case '3' => Some(';')
      case '5' => Some('=')
      case _ => None)
    case '1' => (
      match lo
      case '5' => Some('-')
      case '6' => Some('.')
      case '7' => Some('/')
      case 'b' => Some('#')
      case '9' => Some('!')
      case 'c' => Some('$')
      case 'e' => Some('&')
      case '0' => Some('(')
      case '1' => Some(')')
      case '2' => Some('*')
      case '3' => Some('+')
      case '4' => Some(',')
      case 'd' => Some('%')
      case _ => None)
    case _ => None
  }

  /** The table read backwards: the pair that decodes to `c`, if any. */
  function PairFor(c: char): Option<(char, char)>
  {
    match c
    case 'A' => Some(('7', '9'))
    case 'B' => Some(('7', 'a'))
    case 'C' => Some(('7', 'b'))
    case 'D' => Some(('7', 'c'))
    case 'E' => Some(('7', 'd'))
    case 'F' => Some(('7', 'e'))
    case 'G' => Some(('7', 'f'))
    case 'H' => Some(('7', '0'))
    case 'I' => Some(('7', '1'))
    case 'J' => Some(('7', '2'))
    case 'K' => Some(('7', '3'))
    case 'L' => Some(('7', '4'))
    case 'M' => Some(('7', '5'))
    case 'N' => Some(('7', '6'))
    case 'O' => Some(('7', '7'))
    case 'P' => Some(('6', '8'))
    case 'Q' => Some(('6', '9'))
    case 'R' => Some(('6', 'a'))
    case 'S' => Some(('6', 'b'))
    case 'T' => Some(('6', 'c'))
    case 'U' => Some(('6', 'd'))
    case 'V' => Some(('6', 'e'))
    case 'W' => Some(('6', 'f'))
    case 'X' => Some(('6', '0'))
    case 'Y' => Some(('6', '1'))
    case 'Z' => Some(('6', '2'))
    case 'a' => Some(('5', '9'))
    case 'b' => Some(('5', 'a'))
    case 'c' => Some(('5', 'b'))
    case 'd' => Some(('5', 'c'))
    case 'e' => Some(('5', 'd'))
    case 'f' => Some(('5', 'e'))
    case 'g' => Some(('5', 'f'))
    case 'h' => Some(('5', '0'))
    case 'i' => Some(('5', '1'))
    case 'j' => Some(('5', '2'))
    case 'k' => Some(('5', '3'))
    case 'l' => Some(('5', '4'))
    case 'm' => Some(('5', '5'))
    case 'n' => Some(('5', '6'))
    case 'o' => Some(('5', '7'))
    case 'p' => Some(('4', '8'))
    case 'q' => Some(('4', '9'))
    case 'r' => Some(('4', 'a'))
    case 's' => Some(('4', 'b'))
    case 't' => Some(('4', 'c'))
    case 'u' => Some(('4', 'd'))
    case 'v' => Some(('4', 'e'))
    case 'w' => Some(('4', 'f'))
    case 'x' => Some(('4', '0'))
    case 'y' => Some(('4', '1'))
    case 'z' => Some(('4', '2'))
    case '0' => Some(('0', '8'))
    case '1' => Some(('0', '9'))
    case '2' => Some(('0', 'a'))
    case '3' => Some(('0', 'b'))
    case '4' => Some(('0', 'c'))
    case '5' => Some(('0', 'd'))
    case '6' => Some(('0', 'e'))
    case '7' => Some(('0', 'f'))
    case '8' => Some(('0', '0'))
    case '9' => Some(('0', '1'))
    case '-' => Some(('1', '5'))
    case '.' => Some(('1', '6'))
    case '_' => Some(('6', '7'))
    case '~' => Some(('4', '6'))
    case ':' => Some(('0', '2'))
    case '/' => Some(('1', '7'))
    case '?' => Some(('0', '7'))
    case '#' => Some(('1', 'b'))
    case '[' => Some(('6', '3'))
    case ']' => Some(('6', '5'))
    case '@' => Some(('7', '8'))
    case '!' => Some(('1', '9'))
    case '$' => Some(('1', 'c'))
    case '&' => Some(('1', 'e'))
    case '(' => Some(('1', '0'))
    case ')' => Some(('1', '1'))
    case '*' => Some(('1', '2'))
    case '+' => Some(('1', '3'))
    case ',' => Some(('1', '4'))
    case ';' => Some(('0', '3'))
    case '=' => Some(('0', '5'))
    case '%' => Some(('1', 'd'))
    case _ => None
  }

  /** One `hexPairs.map` step. */
  function DecodePair(pair: string): string
    requires |pair| == 2
  {
    match Substitute(pair[0], pair[1])
    case Some(c) => [c]
    case None => ""
  }

  predicate AllPairs(pairs: seq<string>)
  {
    forall k :: 0 <= k < |pairs| ==> |pairs[k]| == 2
  }

  /** `hexPairs.map(...).join('')`: at most one character per pair. */
  function DecodePairs(pairs: seq<string>): (r: string)
    requires AllPairs(pairs)
    ensures |r| <= |pairs|
  {
    if |pairs| == 0 then "" else DecodePair(pairs[0]) + DecodePairs(pairs[1..])
  }

  function StripMarker(id: string): string
  {
    if StartsWith(id, Marker) then id[|Marker|..] else id
  }

  function DecodeProviderId(encodedId: string): (r: string)
  {
    ReplaceFirst(DecodePairs(HexPairs(StripMarker(encodedId))), ClockPath, ClockJsonPath)
  }

  // ---------------------------------------------------------------------------
  // The table

  // The rows of the table, each split into chunks of cases so that every proof obligation stays small.

  lemma InverseOfRow7(lo: char)
    ensures Substitute('7', lo).Some? ==> PairFor(Substitute('7', lo).value) == Some(('7', lo))
  {
    match lo
    case '9' => assert PairFor('A') == Some(('7', '9'));
    case '0' => assert PairFor('H') == Some(('7', '0'));
    case '1' => assert PairFor('I') == Some(('7', '1'));
    case '2' => assert PairFor('J') == Some(('7', '2'));
    case '3' => assert PairFor('K') == Some(('7', '3'));
    case '4' => assert PairFor('L') == Some(('7', '4'));
    case '5' => assert PairFor('M') == Some(('7', '5'));
    case '6' => assert PairFor('N') == Some(('7', '6'));
    case _ => InverseOfRow7Rest(lo);
  }

  lemma InverseOfRow7Rest(lo: char)
    requires lo != '9' && lo != '0' && lo != '1' && lo != '2' && lo != '3' && lo != '4' &&
      lo != '5' && lo != '6'
    ensures Substitute('7', lo).Some? ==> PairFor(Substitute('7', lo).value) == Some(('7', lo))
  {
    match lo
    case '7' => assert PairFor('O') == Some(('7', '7'));
    case '8' => assert PairFor('@') == Some(('7', '8'));
    case 'a' => assert PairFor('B') == Some(('7', 'a'));
    case 'b' => assert PairFor('C') == Some(('7', 'b'));
    case 'c' => assert PairFor('D') == Some(('7', 'c'));
    case 'd' => assert PairFor('E') == Some(('7', 'd'));
    case 'e' => assert PairFor('F') == Some(('7', 'e'));
    case 'f' => assert PairFor('G') == Some(('7', 'f'));
    case _ =>
  }

  lemma InverseOfRow6(lo: char)
    ensures Substitute('6', lo).Some? ==> PairFor(Substitute('6', lo).value) == Some(('6', lo))
  {
    match lo
    case '8' => assert PairFor('P') == Some(('6', '8'));
    case '9' => assert PairFor('Q') == Some(('6', '9'));
    case '0' => assert PairFor('X') == Some(('6', '0'));
    case '1' => assert PairFor('Y') == Some(('6', '1'));
    case '2' => assert PairFor('Z') == Some(('6', '2'));
    case '7' => assert PairFor('_') == Some(('6', '7'));
    case '3' => assert PairFor('[') == Some(('6', '3'));
    case _ => InverseOfRow6Rest(lo);
  }

  lemma InverseOfRow6Rest(lo: char)
    requires lo != '8' && lo != '9' && lo != '0' && lo != '1' && lo != '2' && lo != '7' &&
      lo != '3'
    ensures Substitute('6', lo).Some? ==> PairFor(Substitute('6', lo).value) == Some(('6', lo))
  {
    match lo
    case '5' => assert PairFor(']') == Some(('6', '5'));
    case 'a' => assert PairFor('R') == Some(('6', 'a'));
    case 'b' => assert PairFor('S') == Some(('6', 'b'));
    case 'c' => assert PairFor('T') == Some(('6', 'c'));
    case 'd' => assert PairFor('U') == Some(('6', 'd'));
    case 'e' => assert PairFor('V') == Some(('6', 'e'));
    case 'f' => assert PairFor('W') == Some(('6', 'f'));
    case _ =>
  }

  lemma InverseOfRow5(lo: char)
    ensures Substitute('5', lo).Some? ==> PairFor(Substitute('5', lo).value) == Some(('5', lo))
  {
    match lo
    case '9' => assert PairFor('a') == Some(('5', '9'));
    case '0' => assert PairFor('h') == Some(('5', '0'));
    case '1' => assert PairFor('i') == Some(('5', '1'));
    case '2' => assert PairFor('j') == Some(('5', '2'));
    case '3' => assert PairFor('k') == Some(('5', '3'));
    case '4' => assert PairFor('l') == Some(('5', '4'));
    case '5' => assert PairFor('m') == Some(('5', '5'));
    case '6' => assert PairFor('n') == Some(('5', '6'));
    case _ => InverseOfRow5Rest(lo);
  }

  lemma InverseOfRow5Rest(lo: char)
    requires lo != '9' && lo != '0' && lo != '1' && lo != '2' && lo != '3' && lo != '4' &&
      lo != '5' && lo != '6'
    ensures Substitute('5', lo).Some? ==> PairFor(Substitute('5', lo).value) == Some(('5', lo))
  {
    match lo
    case '7' => assert PairFor('o') == Some(('5', '7'));
    case 'a' => assert PairFor('b') == Some(('5', 'a'));
    case 'b' => assert PairFor('c') == Some(('5', 'b'));
    case 'c' => assert PairFor('d') == Some(('5', 'c'));
    case 'd' => assert PairFor('e') == Some(('5', 'd'));
    case 'e' => assert PairFor('f') == Some(('5', 'e'));
    case 'f' => assert PairFor('g') == Some(('5', 'f'));
    case _ =>
  }

  lemma InverseOfRow4(lo: char)
    ensures Substitute('4', lo).Some? ==> PairFor(Substitute('4', lo).value) == Some(('4', lo))
  {
    match lo
    case '8' => assert PairFor('p') == Some(('4', '8'));
    case '9' => assert PairFor('q') == Some(('4', '9'));
    case '0' => assert PairFor('x') == Some(('4', '0'));
    case '1' => assert PairFor('y') == Some(('4', '1'));
    case '2' => assert PairFor('z') == Some(('4', '2'));
    case '6' => assert PairFor('~') == Some(('4', '6'));
    case _ => InverseOfRow4Rest(lo);
  }

  lemma InverseOfRow4Rest(lo: char)
    requires lo != '8' && lo != '9' && lo != '0' && lo != '1' && lo != '2' && lo != '6'
    ensures Substitute('4', lo).Some? ==> PairFor(Substitute('4', lo).value) == Some(('4', lo))
  {
    match lo
    case 'a' => assert PairFor('r') == Some(('4', 'a'));
    case 'b' => assert PairFor('s') == Some(('4', 'b'));
    case 'c' => assert PairFor('t') == Some(('4', 'c'));
    case 'd' => assert PairFor('u') == Some(('4', 'd'));
    case 'e' => assert PairFor('v') == Some(('4', 'e'));
    case 'f' => assert PairFor('w') == Some(('4', 'f'));
    case _ =>
  }

  lemma InverseOfRow0(lo: char)
    ensures Substitute('0', lo).Some? ==> PairFor(Substitute('0', lo).value) == Some(('0', lo))
  {
    match lo
    case '8' => assert PairFor('0') == Some(('0', '8'));
    case '9' => assert PairFor('1') == Some(('0', '9'));
    case '0' => assert PairFor('8') == Some(('0', '0'));
    case '1' => assert PairFor('9') == Some(('0', '1'));
    case '2' => assert PairFor(':') == Some(('0', '2'));
    case _ => InverseOfRow0Rest(lo);
  }

  lemma InverseOfRow0Rest(lo: char)
    requires lo != '8' && lo != '9' && lo != '0' && lo != '1' && lo != '2'
    ensures Substitute('0', lo).Some? ==> PairFor(Substitute('0', lo).value) == Some(('0', lo))
  {
    match lo
    case '7' => assert PairFor('?') == Some(('0', '7'));
    case '3' => assert PairFor(';') == Some(('0', '3'));
    case '5' => assert PairFor('=') == Some(('0', '5'));
    case 'a' => assert PairFor('2') == Some(('0', 'a'));
    case 'b' => assert PairFor('3') == Some(('0', 'b'));
    case _ => InverseOfRow0Tail(lo);
  }

  lemma InverseOfRow0Tail(lo: char)
    requires lo != '8' && lo != '9' && lo != '0' && lo != '1' && lo != '2' && lo != '7' &&
      lo != '3' && lo != '5' && lo != 'a' && lo != 'b'
    ensures Substitute('0', lo).Some? ==> PairFor(Substitute('0', lo).value) == Some(('0', lo))
  {
    match lo
    case 'c' => assert PairFor('4') == Some(('0', 'c'));
    case 'd' => assert PairFor('5') == Some(('0', 'd'));
    case 'e' => assert PairFor('6') == Some(('0', 'e'));
    case 'f' => assert PairFor('7') == Some(('0', 'f'));
    case _ =>
  }

  lemma InverseOfRow1(lo: char)
    ensures Substitute('1', lo).Some? ==> PairFor(Substitute('1', lo).value) == Some(('1', lo))
  {
    match lo
    case '5' => assert PairFor('-') == Some(('1', '5'));
    case '6' => assert PairFor('.') == Some(('1', '6'));
    case '7' => assert PairFor('/') == Some(('1', '7'));
    case '9' => assert PairFor('!') == Some(('1', '9'));
    case '0' => assert PairFor('(') == Some(('1', '0'));
    case _ => InverseOfRow1Rest(lo);
  }

  lemma InverseOfRow1Rest(lo: char)
    requires lo != '5' && lo != '6' && lo != '7' && lo != '9' && lo != '0'
    ensures Substitute('1', lo).Some? ==> PairFor(Substitute('1', lo).value) == Some(('1', lo))
  {
    match lo
    case '1' => assert PairFor(')') == Some(('1', '1'));
    case '2' => assert PairFor('*') == Some(('1', '2'));
    case '3' => assert PairFor('+') == Some(('1', '3'));
    case '4' => assert PairFor(',') == Some(('1', '4'));
    case 'b' => assert PairFor('#') == Some(('1', 'b'));
    case _ => InverseOfRow1Tail(lo);
  }

  lemma InverseOfRow1Tail(lo: char)
    requires lo != '5' && lo != '6' && lo != '7' && lo != '9' && lo != '0' && lo != '1' &&
      lo != '2' && lo != '3' && lo != '4' && lo != 'b'
    ensures Substitute('1', lo).Some? ==> PairFor(Substitute('1', lo).value) == Some(('1', lo))
  {
    match lo
    case 'c' => assert PairFor('$') == Some(('1', 'c'));
    case 'e' => assert PairFor('&') == Some(('1', 'e'));
    case 'd' => assert PairFor('%') == Some(('1', 'd'));
    case _ =>
  }

  /** Each known pair is the only pair for its character. */
  lemma SubstituteHasInverse(hi: char, lo: char)
    ensures Substitute(hi, lo).Some? ==> PairFor(Substitute(hi, lo).value) == Some((hi, lo))
  {
    match hi
    case '7' => InverseOfRow7(lo);
    case '6' => InverseOfRow6(lo);
    case '5' => InverseOfRow5(lo);
    case '4' => InverseOfRow4(lo);
    case '0' => InverseOfRow0(lo);
    case '1' => InverseOfRow1(lo);
    case _ =>
  }

  /** The inverse table is a right inverse: the pair it gives for `c` decodes to `c`. */
  lemma PairForIsInverse(c: char)
    ensures PairFor(c).Some? ==> Substitute(PairFor(c).value.0, PairFor(c).value.1) == Some(c)
  {
    match c
    case 'A' => assert Substitute('7', '9') == Some('A');
    case 'B' => assert Substitute('7', 'a') == Some('B');
    case 'C' => assert Substitute('7', 'b') == Some('C');
    case 'D' => assert Substitute('7', 'c') == Some('D');
    case 'E' => assert Substitute('7', 'd') == Some('E');
    case 'F' => assert Substitute('7', 'e') == Some('F');
    case 'G' => assert Substitute('7', 'f') == Some('G');
    case 'H' => assert Substitute('7', '0') == Some('H');
    case 'I' => assert Substitute('7', '1') == Some('I');
    case 'J' => assert Substitute('7', '2') == Some('J');
    case 'K' => assert Substitute('7', '3') == Some('K');
    case 'L' => assert Substitute('7', '4') == Some('L');
    case 'M' => assert Substitute('7', '5') == Some('M');
    case 'N' => assert Substitute('7', '6') == Some('N');
    case 'O' => assert Substitute('7', '7') == Some('O');
    case 'P' => assert Substitute('6', '8') == Some('P');
    case 'Q' => assert Substitute('6', '9') == Some('Q');
    case 'R' => assert Substitute('6', 'a') == Some('R');
    case 'S' => assert Substitute('6', 'b') == Some('S');
    case 'T' => assert Substitute('6', 'c') == Some('T');
    case 'U' => assert Substitute('6', 'd') == Some('U');
    case 'V' => assert Substitute('6', 'e') == Some('V');
    case 'W' => assert Substitute('6', 'f') == Some('W');
    case 'X' => assert Substitute('6', '0') == Some('X');
    case 'Y' => assert Substitute('6', '1') == Some('Y');
    case 'Z' => assert Substitute('6', '2') == Some('Z');
    case 'a' => assert Substitute('5', '9') == Some('a');
    case 'b' => assert Substitute('5', 'a') == Some('b');
    case _ => PairForIsInverseRest(c);
  }

  lemma PairForIsInverseRest(c: char)
    requires c != 'A' && c != 'B' && c != 'C' && c != 'D' && c != 'E' && c != 'F' && c != 'G' &&
      c != 'H' && c != 'I' && c != 'J' && c != 'K' && c != 'L' && c != 'M' && c != 'N' &&
      c != 'O' && c != 'P' && c != 'Q' && c != 'R' && c != 'S' && c != 'T' && c != 'U' &&
      c != 'V' && c != 'W' && c != 'X' && c != 'Y' && c != 'Z' && c != 'a' && c != 'b'
    ensures PairFor(c).Some? ==> Substitute(PairFor(c).value.0, PairFor(c).value.1) == Some(c)
  {
    match c
    case 'c' => assert Substitute('5', 'b') == Some('c');
    case 'd' => assert Substitute('5', 'c') == Some('d');
    case 'e' => assert Substitute('5', 'd') == Some('e');
    case 'f' => assert Substitute('5', 'e') == Some('f');
    case 'g' => assert Substitute('5', 'f') == Some('g');
    case 'h' => assert Substitute('5', '0') == Some('h');
    case 'i' => assert Substitute('5', '1') == Some('i');
    case 'j' => assert Substitute('5', '2') == Some('j');
    case 'k' => assert Substitute('5', '3') == Some('k');
    case 'l' => assert Substitute('5', '4') == Some('l');
    case 'm' => assert Substitute('5', '5') == Some('m');
    case 'n' => assert Substitute('5', '6') == Some('n');
    case 'o' => assert Substitute('5', '7') == Some('o');
    case 'p' => assert Substitute('4', '8') == Some('p');
    case 'q' => assert Substitute('4', '9') == Some('q');
    case 'r' => assert Substitute('4', 'a') == Some('r');
    case 's' => assert Substitute('4', 'b') == Some('s');
    case 't' => assert Substitute('4', 'c') == Some('t');
    case 'u' => assert Substitute('4', 'd') == Some('u');
    case 'v' => assert Substitute('4', 'e') == Some('v');
    case 'w' => assert Substitute('4', 'f') == Some('w');
    case 'x' => assert Substitute('4', '0') == Some('x');
    case 'y' => assert Substitute('4', '1') == Some('y');
    case 'z' => assert Substitute('4', '2') == Some('z');
    case '0' => assert Substitute('0', '8') == Some('0');
    case '1' => assert Substitute('0', '9') == Some('1');
    case '2' => assert Substitute('0', 'a') == Some('2');
    case '3' => assert Substitute('0', 'b') == Some('3');
    case _ => PairForIsInverseTail(c);
  }

  lemma PairForIsInverseTail(c: char)
    requires c != 'A' && c != 'B' && c != 'C' && c != 'D' && c != 'E' && c != 'F' && c != 'G' &&
      c != 'H' && c != 'I' && c != 'J' && c != 'K' && c != 'L' && c != 'M' && c != 'N' &&
      c != 'O' && c != 'P' && c != 'Q' && c != 'R' && c != 'S' && c != 'T' && c != 'U' &&
      c != 'V' && c != 'W' && c != 'X' && c != 'Y' && c != 'Z' && c != 'a' && c != 'b' &&
      c != 'c' && c != 'd' && c != 'e' && c != 'f' && c != 'g' && c != 'h' && c != 'i' &&
      c != 'j' && c != 'k' && c != 'l' && c != 'm' && c != 'n' && c != 'o' && c != 'p' &&
      c != 'q' && c != 'r' && c != 's' && c != 't' && c != 'u' && c != 'v' && c != 'w' &&
      c != 'x' && c != 'y' && c != 'z' && c != '0' && c != '1' && c != '2' && c != '3'
    ensures PairFor(c).Some? ==> Substitute(PairFor(c).value.0, PairFor(c).value.1) == Some(c)
  {
    match c
    case '4' => assert Substitute('0', 'c') == Some('4');
    case '5' => assert Substitute('0', 'd') == Some('5');
    case '6' => assert Substitute('0', 'e') == Some('6');
    case '7' => assert Substitute('0', 'f') == Some('7');
    case '8' => assert Substitute('0', '0') == Some('8');
    case '9' => assert Substitute('0', '1') == Some('9');
    case '-' => assert Substitute('1', '5') == Some('-');
    case '.' => assert Substitute('1', '6') == Some('.');
    case '_' => assert Substitute('6', '7') == Some('_');
    case '~' => assert Substitute('4', '6') == Some('~');
    case ':' => assert Substitute('0', '2') == Some(':');
    case '/' => assert Substitute('1', '7') == Some('/');
    case '?' => assert Substitute('0', '7') == Some('?');
    case '#' => assert Substitute('1', 'b') == Some('#');
    case '[' => assert Substitute('6', '3') == Some('[');
    case ']' => assert Substitute('6', '5') == Some(']');
    case '@' => assert Substitute('7', '8') == Some('@');
    case '!' => assert Substitute('1', '9') == Some('!');
    case '$' => assert Substitute('1', 'c') == Some('$');
    case '&' => assert Substitute('1', 'e') == Some('&');
    case '(' => assert Substitute('1', '0') == Some('(');
    case ')' => assert Substitute('1', '1') == Some(')');
    case '*' => assert Substitute('1', '2') == Some('*');
    case '+' => assert Substitute('1', '3') == Some('+');
    case ',' => assert Substitute('1', '4') == Some(',');
    case ';' => assert Substitute('0', '3') == Some(';');
    case '=' => assert Substitute('0', '5') == Some('=');
    case '%' => assert Substitute('1', 'd') == Some('%');
    case _ =>
  }

  /** Distinct known pairs decode to distinct characters. */
  lemma SubstituteInjective(a: char, b: char, c: char, d: char)
    requires Substitute(a, b).Some? && Substitute(a, b) == Substitute(c, d)
    ensures a == c && b == d
  {
    SubstituteHasInverse(a, b);
    SubstituteHasInverse(c, d);
  }

  // ---------------------------------------------------------------------------
  // Cutting into pairs

  predicate NoLineTerminator(s: string)
  {
    forall i :: 0 <= i < |s| ==> !IsLineTerminator(s[i])
  }

  /** On a single-line input the pairs are `s[0..2], s[2..4], ...`, and an odd last character is dropped. */
  lemma {:induction false} HexPairsOfLine(s: string)
    requires NoLineTerminator(s)
    ensures |HexPairs(s)| == |s| / 2
    ensures forall k :: 0 <= k < |s| / 2 ==> HexPairs(s)[k] == s[2 * k..2 * k + 2]
    decreases |s|
  {
    if |s| >= 2 {
      var rest := s[2..];
      assert NoLineTerminator(rest) by {
        forall i | 0 <= i < |rest| ensures !IsLineTerminator(rest[i]) {
          assert rest[i] == s[i + 2];
        }
      }
      HexPairsOfLine(rest);
      forall k | 0 <= k < |s| / 2
        ensures HexPairs(s)[k] == s[2 * k..2 * k + 2]
      {
        if k > 0 {
          assert HexPairs(s)[k] == HexPairs(rest)[k - 1];
          assert rest[2 * (k - 1)..2 * (k - 1) + 2] == s[2 * k..2 * k + 2];
        }
      }
    }
  }

  lemma HexPairsCons(p: string, rest: string)
    requires |p| == 2 && !IsLineTerminator(p[0]) && !IsLineTerminator(p[1])
    ensures HexPairs(p + rest) == [p] + HexPairs(rest)
  {
    assert (p + rest)[..2] == p;
    assert (p + rest)[2..] == rest;
  }

  // ---------------------------------------------------------------------------
  // Decoding pair sequences

  /** Decoding distributes over concatenation of the pair sequence. */
  lemma {:induction false} DecodePairsAppend(a: seq<string>, b: seq<string>)
    requires AllPairs(a) && AllPairs(b)
    ensures AllPairs(a + b)
    ensures DecodePairs(a + b) == DecodePairs(a) + DecodePairs(b)
    decreases |a|
  {
    assert AllPairs(a + b) by {
      forall k | 0 <= k < |a + b| ensures |(a + b)[k]| == 2 {
        if k < |a| { assert (a + b)[k] == a[k]; } else { assert (a + b)[k] == b[k - |a|]; }
      }
    }
    if |a| > 0 {
      assert (a + b)[1..] == a[1..] + b;
      DecodePairsAppend(a[1..], b);
    } else {
      assert a + b == b;
    }
  }

  /** A pair outside the table contributes nothing: it is dropped silently. */
  lemma UnknownPairDropped(a: seq<string>, p: string, b: seq<string>)
    requires AllPairs(a) && AllPairs(b) && |p| == 2
    requires Substitute(p[0], p[1]).None?
    ensures AllPairs(a + [p] + b) && AllPairs(a + b)
    ensures DecodePairs(a + [p] + b) == DecodePairs(a + b)
  {
    var single := [p];
    UnknownPairAlone(p);
    DecodePairsAppend(a, single);
    assert DecodePairs(a + single) == DecodePairs(a);
    DecodePairsAppend(a + single, b);
    DecodePairsAppend(a, b);
  }

  lemma UnknownPairAlone(p: string)
    requires |p| == 2 && Substitute(p[0], p[1]).None?
    ensures AllPairs([p]) && DecodePairs([p]) == ""
  {
    assert [p][1..] == [];
  }

  /** When every pair is in the table, the output has one character per pair, in order. */
  lemma {:induction false} DecodeKnownPairs(pairs: seq<string>)
    requires AllPairs(pairs)
    requires forall k :: 0 <= k < |pairs| ==> Substitute(pairs[k][0], pairs[k][1]).Some?
    ensures |DecodePairs(pairs)| == |pairs|
    ensures forall k :: 0 <= k < |pairs| ==>
      DecodePairs(pairs)[k] == Substitute(pairs[k][0], pairs[k][1]).value
  {
    if |pairs| > 0 {
      DecodeKnownPairs(pairs[1..]);
      forall k | 0 <= k < |pairs|
        ensures DecodePairs(pairs)[k] == Substitute(pairs[k][0], pairs[k][1]).value
      {
        if k > 0 { assert pairs[1..][k - 1] == pairs[k]; }
      }
    }
  }

  // ---------------------------------------------------------------------------
  // The marker and the `/clock` rewrite

  /** A leading `--` is removed once, and the marker is not a pair of the table, so an id
      decodes the same with or without one more leading `--`. */
  lemma MarkerOptional(s: string)
    ensures DecodeProviderId(Marker + s) == DecodeProviderId(s)
  {
    assert StartsWith(Marker + s, Marker);
    assert (Marker + s)[|Marker|..] == s;
    if StartsWith(s, Marker) {
      var rest := s[|Marker|..];
      assert s == Marker + rest;
      HexPairsCons(Marker, rest);
      UnknownPairDropped([], Marker, HexPairs(rest));
      assert [] + [Marker] + HexPairs(rest) == HexPairs(s);
      assert [] + HexPairs(rest) == HexPairs(rest);
    }
  }

  lemma DecodesABC()
    ensures DecodeProviderId("--797a7b") == "ABC"
    ensures DecodeProviderId("797a7b") == "ABC"
  {
    var s := "797a7b";
    assert s[..2] == "79";
    assert !StartsWith(s, Marker);
    assert StartsWith("--797a7b", Marker);
    assert "--797a7b"[2..] == s;
    PairsOfABC();
    DecodePairsABC();
    ClockAbsentFromABC();
  }

  lemma PairsOfABC()
    ensures HexPairs("797a7b") == ["79", "7a", "7b"]
  {
    var s := "797a7b";
    assert s[..2] == "79" && s[2..] == "7a7b";
    assert s[2..][..2] == "7a" && s[2..][2..] == "7b";
    assert s[2..][2..][..2] == "7b" && s[2..][2..][2..] == "";
  }

  lemma DecodePairsABC()
    ensures AllPairs(["79", "7a", "7b"]) && DecodePairs(["79", "7a", "7b"]) == "ABC"
  {
    DecodeKnownPairs(["79", "7a", "7b"]);
  }

  lemma ClockAbsentFromABC()
    ensures ReplaceFirst("ABC", ClockPath, ClockJsonPath) == "ABC"
  {
    forall i: nat ensures !OccursAt("ABC", ClockPath, i) { }
    ReplaceFirstAbsent("ABC", ClockPath, ClockJsonPath);
  }

  /** Only the first `/clock` becomes `/clock.json`; a path without `/clock` is left as it is. */
  lemma ClockRewrite(d: string)
    ensures (forall i: nat :: !OccursAt(d, ClockPath, i)) ==>
      ReplaceFirst(d, ClockPath, ClockJsonPath) == d
    ensures forall i: nat :: OccursAt(d, ClockPath, i) && (forall j: nat :: j < i ==> !OccursAt(d, ClockPath, j)) ==>
      ReplaceFirst(d, ClockPath, ClockJsonPath) == d[..i] + ClockJsonPath + d[i + |ClockPath|..]
    ensures Contains(d, ClockPath) ==> Contains(ReplaceFirst(d, ClockPath, ClockJsonPath), ClockJsonPath)
  {
    if forall i: nat :: !OccursAt(d, ClockPath, i) {
      ReplaceFirstAbsent(d, ClockPath, ClockJsonPath);
    }
    forall i: nat | OccursAt(d, ClockPath, i) && (forall j: nat :: j < i ==> !OccursAt(d, ClockPath, j))
      ensures ReplaceFirst(d, ClockPath, ClockJsonPath) == d[..i] + ClockJsonPath + d[i + |ClockPath|..]
    {
      ReplaceFirstAt(d, ClockPath, ClockJsonPath, i);
    }
    ContainsOccurs(d, ClockPath);
    if Contains(d, ClockPath) {
      var i: nat :| OccursAt(d, ClockPath, i);
      FirstOccurrence(d, ClockPath, i);
      var f: nat :| f <= i && OccursAt(d, ClockPath, f) && forall j: nat :: j < f ==> !OccursAt(d, ClockPath, j);
      ReplaceFirstAt(d, ClockPath, ClockJsonPath, f);
      var r := ReplaceFirst(d, ClockPath, ClockJsonPath);
      assert r[f..f + |ClockJsonPath|] == ClockJsonPath;
      assert OccursAt(r, ClockJsonPath, f);
      ContainsOccurs(r, ClockJsonPath);
    }
  }

  /** The rewrite is not idempotent: a path that already ends in `/clock.json` grows again. */
  lemma ClockRewriteNotIdempotent()
    ensures ReplaceFirst(ClockJsonPath, ClockPath, ClockJsonPath) == "/clock.json.json"
  {
    assert StartsWith(ClockJsonPath, ClockPath);
  }

  // ---------------------------------------------------------------------------
  // Round trip through the table

  /** The encoding of `s` through the inverse table. */
  function Encode(s: string): (r: string)
    requires forall i :: 0 <= i < |s| ==> PairFor(s[i]).Some?
  {
    if |s| == 0 then "" else [PairFor(s[0]).value.0, PairFor(s[0]).value.1] + Encode(s[1..])
  }

  lemma PairForIsHex(c: char)
    ensures PairFor(c).Some? ==>
      !IsLineTerminator(PairFor(c).value.0) && !IsLineTerminator(PairFor(c).value.1)
  {
  }

  lemma {:induction false} DecodeEncodedBody(s: string)
    requires forall i :: 0 <= i < |s| ==> PairFor(s[i]).Some?
    ensures DecodePairs(HexPairs(Encode(s))) == s
    decreases |s|
  {
    if |s| > 0 {
      var p := [PairFor(s[0]).value.0, PairFor(s[0]).value.1];
      PairForIsHex(s[0]);
      PairForIsInverse(s[0]);
      HexPairsCons(p, Encode(s[1..]));
      DecodeEncodedBody(s[1..]);
      assert HexPairs(Encode(s))[1..] == HexPairs(Encode(s[1..]));
    }
  }

  /** Decoding a marked encoding gives back the text, with the `/clock` rewrite applied. */
  lemma EncodeRoundTrip(s: string)
    requires forall i :: 0 <= i < |s| ==> PairFor(s[i]).Some?
    ensures DecodeProviderId(Marker + Encode(s)) == ReplaceFirst(s, ClockPath, ClockJsonPath)
  {
    assert StartsWith(Marker + Encode(s), Marker);
    assert (Marker + Encode(s))[|Marker|..] == Encode(s);
    DecodeEncodedBody(s);
  }
}
