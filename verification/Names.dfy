/** Variable names and YAML trees. */
module Names {

  /** A parsed YAML document. A key that is not a scalar reads as the empty string, and keys may
      repeat. */
  datatype Node = Null | Scalar(text: string) | Sequence(items: seq<Node>) | Map(entries: seq<Entry>)

  datatype Entry = Entry(key: string, value: Node)

  predicate NameChar(c: char) {
    'a' <= c <= 'z' || '0' <= c <= '9' || c == '.' || c == '_'
  }

  predicate ValidName(s: string) {
    forall k :: 0 <= k < |s| ==> NameChar(s[k])
  }

  lemma LettersListed(c: char)
    ensures c in "abcdefghijklmnopqrstuvwxyz" <==> 'a' <= c <= 'z'
  {
    var letters := "abcdefghijklmnopqrstuvwxyz";
    if 'a' <= c <= 'z' {
      assert letters[c as int - 'a' as int] == c;
    }
  }

  lemma DigitsListed(c: char)
    ensures c in "0123456789" <==> '0' <= c <= '9'
  {
    var digits := "0123456789";
    if '0' <= c <= '9' {
      assert digits[c as int - '0' as int] == c;
    }
  }

  /** The characters allowed in names, one by one. */
  lemma AllowedChars(c: char)
    ensures NameChar(c) <==> c in "abcdefghijklmnopqrstuvwxyz" || c in "._" || c in "0123456789"
  {
    LettersListed(c);
    DigitsListed(c);
  }

  function ToLower(c: char): char {
    if 'A' <= c <= 'Z' then c - 'A' + 'a' else c
  }

  function Lower(s: string): (r: string)
    ensures |r| == |s| && forall k :: 0 <= k < |s| ==> r[k] == ToLower(s[k])
  {
    seq(|s|, k requires 0 <= k < |s| => ToLower(s[k]))
  }

  /** Lowercasing takes capitals to the letters at the same place and leaves the rest alone. */
  lemma LowerMeans(k: nat, c: char)
    ensures k < 26 ==> ToLower("ABCDEFGHIJKLMNOPQRSTUVWXYZ"[k]) == "abcdefghijklmnopqrstuvwxyz"[k]
    ensures c !in "ABCDEFGHIJKLMNOPQRSTUVWXYZ" ==> ToLower(c) == c
  {
    var capitals := "ABCDEFGHIJKLMNOPQRSTUVWXYZ";
    if 'A' <= c <= 'Z' {
      assert capitals[c as int - 'A' as int] == c;
    }
  }

  /** Valid names have no capitals to lower. */
  lemma ValidIsLower(s: string)
    requires ValidName(s)
    ensures Lower(s) == s
  {
    assert forall k :: 0 <= k < |s| ==> NameChar(s[k]);
  }
}
