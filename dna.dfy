/** Reverse complement of a DNA string, as `rc` in tredparse/bam_parser.py. */
module Dna {

  /** The translation table of the source: A/T, C/G, a/t and c/g are swapped,
      N, n, X and x are fixed, and every other character is left unchanged. */
  function Complement(c: char): (r: char)
    ensures (r == c) <==> !(c in "ATCGatcg")
    ensures (r in "ATCGatcg") <==> (c in "ATCGatcg")
  {
    match c
    case 'A' => 'T'
    case 'T' => 'A'
    case 'C' => 'G'
    case 'G' => 'C'
    case 'a' => 't'
    case 't' => 'a'
    case 'c' => 'g'
    case 'g' => 'c'
    case 'N' => 'N'
    case 'n' => 'n'
    case 'X' => 'X'
    case 'x' => 'x'
    case _ => c
  }

  lemma ComplementInvolutive(c: char)
    ensures Complement(Complement(c)) == c
  {
  }

  /** `s.translate(_complement)`: every character complemented in place. */
  function Translate(s: string): (r: string)
    ensures |r| == |s|
    ensures forall i :: 0 <= i < |s| ==> r[i] == Complement(s[i])
  {
    if s == [] then [] else [Complement(s[0])] + Translate(s[1..])
  }

  /** `cs[::-1]`: the string read backwards. */
  function Reverse(s: string): (r: string)
    ensures |r| == |s|
    ensures forall i :: 0 <= i < |s| ==> r[i] == s[|s| - 1 - i]
  {
    if s == [] then [] else Reverse(s[1..]) + [s[0]]
  }

  /** The reverse complement: position i holds the complement of the
      character at the mirrored position. */
  function Rc(s: string): (r: string)
    ensures |r| == |s|
    ensures forall i :: 0 <= i < |s| ==> r[i] == Complement(s[|s| - 1 - i])
  {
    Reverse(Translate(s))
  }

  /** Taking the reverse complement twice gives the original string back. */
  lemma RcInvolution(s: string)
    ensures Rc(Rc(s)) == s
  {
    var r := Rc(Rc(s));
    forall i | 0 <= i < |s|
      ensures r[i] == s[i]
    {
      ComplementInvolutive(s[i]);
    }
  }
}
