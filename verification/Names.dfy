/** The forms one human's name is matched under. */
module Names {
  import opened Wrappers

  /** A word of a name, folded to ASCII, lowercased and stripped of punctuation. */
  type Token = s: string | s != "" witness "a"

  /** A normalized name: its words, and whether it was written with a comma. */
  datatype Name = Name(tokens: seq<Token>, comma: bool)

  type Key = seq<Token>

  function NameKeys(n: Name): set<Key> {
    var t := n.tokens;
    if t == [] then {}
    else if |t| == 1 then {t}
    else {t, [t[0], t[|t| - 1]]} + if n.comma then {t[1..] + t[..1], [t[1], t[0]]} else {}
  }

  predicate ShareKey(a: Name, b: Name) { NameKeys(a) * NameKeys(b) != {} }

  /** First name and surname; a first name of one letter is not one to match on. */
  function FirstAndSurname(n: Name): Option<(Token, Token)> {
    if |n.tokens| < 2 || |n.tokens[0]| < 2 then None
    else Some((n.tokens[0], n.tokens[|n.tokens| - 1]))
  }

  /** A way a name can be read: as it stands or, written with a comma, with its first word last. */
  ghost predicate ReadsAs(n: Name, words: seq<Token>) {
    words == n.tokens || (n.comma && |n.tokens| >= 2 && words == n.tokens[1..] + [n.tokens[0]])
  }

  /** The readings agree on their first and on their last words, and are of one word alike. */
  ghost predicate SameEnds(x: seq<Token>, y: seq<Token>) {
    x != [] && y != [] && x[0] == y[0] && x[|x| - 1] == y[|y| - 1] && (|x| == 1 <==> |y| == 1)
  }

  /** Two names share a key exactly when some readings of them agree on their first and on their
      last words, whatever stands between; a name of one word is matched by that word alone. */
  lemma ShareKeyByWords(a: Name, b: Name)
    ensures ShareKey(a, b) <==> exists x, y :: ReadsAs(a, x) && ReadsAs(b, y) && SameEnds(x, y)
  {
    if ShareKey(a, b) {
      var k :| k in NameKeys(a) * NameKeys(b);
      var x := ReadingOfKey(a, k);
      var y := ReadingOfKey(b, k);
      assert SameEnds(x, y);
    }
    if x, y :| ReadsAs(a, x) && ReadsAs(b, y) && SameEnds(x, y) { EndsShared(a, b, x, y); }
  }

  lemma EndsShared(a: Name, b: Name, x: seq<Token>, y: seq<Token>)
    requires ReadsAs(a, x) && ReadsAs(b, y) && SameEnds(x, y)
    ensures ShareKey(a, b)
  {
    EndsAreKeys(a, x);
    EndsAreKeys(b, y);
    var k := if |x| == 1 then [x[0]] else [x[0], x[|x| - 1]];
    assert k in NameKeys(a) * NameKeys(b);
  }

  /** Every key is a reading's own words or its ends. */
  lemma ReadingOfKey(n: Name, k: Key) returns (words: seq<Token>)
    requires k in NameKeys(n)
    ensures ReadsAs(n, words) && words != [] && k != [] && k[0] == words[0] && k[|k| - 1] == words[|words| - 1]
    ensures |k| == 1 <==> |words| == 1
  {
    var t := n.tokens;
    var straight := k == t || k == [t[0], t[|t| - 1]];
    words := if |t| == 1 || straight then t else t[1..] + [t[0]];
    if |t| > 1 && !straight { assert t[1..] + t[..1] == words; }
  }

  lemma EndsAreKeys(n: Name, words: seq<Token>)
    requires ReadsAs(n, words) && words != []
    ensures (if |words| == 1 then [words[0]] else [words[0], words[|words| - 1]]) in NameKeys(n)
  {
    if |n.tokens| == 1 { assert n.tokens == [words[0]]; }
  }
}
