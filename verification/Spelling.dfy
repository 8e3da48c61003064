/**
 How a string may be written between the quotes of a JSON document: section 7 of RFC 8259. A text is
 made of pieces, each of which stands for one character, however it is written.
*/
module Spelling {
  datatype Piece =
    | Raw(c: char)                                  // the character itself
    | Short(letter: char)                           // backslash and a letter
    | Unit(n: nat, hex: string)                     // backslash, u and a code unit that is no surrogate
    | Pair(c: char, high: string, low: string)      // two surrogate units for a character beyond them
    | Lone(n: nat, hex: string)                     // a surrogate unit that is half of no pair

  /** The two-character escapes and the code points they stand for. */
  const SHORT := map['"' := 0x22, '\\' := 0x5C, '/' := 0x2F,
                     'b' := 0x08, 'f' := 0x0C, 'n' := 0x0A, 'r' := 0x0D, 't' := 0x09]

  const LOWER := "0123456789abcdef"
  const UPPER := "0123456789ABCDEF"
  const REPLACEMENT := '\U{FFFD}'

  predicate IsDigitOf(c: char, v: nat) { v < 16 && (c == LOWER[v] || c == UPPER[v]) }

  /** Four hexadecimal digits, in either case, that spell `n`. */
  predicate IsHex(hex: string, n: nat) {
    && |hex| == 4 && n < 0x10000
    && IsDigitOf(hex[0], n / 0x1000) && IsDigitOf(hex[1], n / 0x100 % 0x10)
    && IsDigitOf(hex[2], n / 0x10 % 0x10) && IsDigitOf(hex[3], n % 0x10)
  }

  /** The surrogates of a character beyond the basic plane. */
  function High(c: char): nat
    requires c as int >= 0x10000
  {
    0xD800 + (c as int - 0x10000) / 0x400
  }

  function Low(c: char): nat
    requires c as int >= 0x10000
  {
    0xDC00 + (c as int - 0x10000) % 0x400
  }

  predicate ValidPiece(p: Piece) {
    match p
    case Raw(c) => c as int >= 0x20 && c != '"' && c != '\\'
    case Short(letter) => letter in SHORT
    case Unit(n, hex) => IsHex(hex, n) && !(0xD800 <= n < 0xE000)
    case Pair(c, high, low) => c as int >= 0x10000 && IsHex(high, High(c)) && IsHex(low, Low(c))
    case Lone(n, hex) => IsHex(hex, n) && 0xD800 <= n < 0xE000
  }

  /** A high surrogate right before a low one: together they are a pair, not two pieces. */
  predicate Joins(p: Piece, q: Piece) {
    p.Lone? && q.Lone? && p.n < 0xDC00 <= q.n
  }

  predicate ValidPieces(ps: seq<Piece>) {
    && (forall i :: 0 <= i < |ps| ==> ValidPiece(ps[i]))
    && (forall i :: 0 < i < |ps| ==> !Joins(ps[i - 1], ps[i]))
  }

  function Written(p: Piece): string {
    match p
    case Raw(c) => [c]
    case Short(letter) => ['\\', letter]
    case Unit(_, hex) => "\\u" + hex
    case Pair(_, high, low) => "\\u" + high + "\\u" + low
    case Lone(_, hex) => "\\u" + hex
  }

  /** The character a piece stands for; half a pair stands for the replacement character. */
  function Meant(p: Piece): char
    requires ValidPiece(p)
  {
    match p
    case Raw(c) => c
    case Short(letter) => SHORT[letter] as char
    case Unit(n, _) => n as char
    case Pair(c, _, _) => c
    case Lone(_, _) => REPLACEMENT
  }

  function WrittenAll(ps: seq<Piece>): string {
    if ps == [] then "" else Written(ps[0]) + WrittenAll(ps[1..])
  }

  function MeantAll(ps: seq<Piece>): string
    requires ValidPieces(ps)
  {
    if ps == [] then "" else [Meant(ps[0])] + MeantAll(ps[1..])
  }

  /** `text` is a way to write `s` between quotes. */
  predicate Spells(ps: seq<Piece>, s: string, text: string) {
    ValidPieces(ps) && MeantAll(ps) == s && WrittenAll(ps) == text
  }
}
