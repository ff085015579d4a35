/** The label text the configuration dialog shows for a settings key: the key's first
    character upper-cased and every underscore turned into a space. */
module HelperWidgets {

  /** `str.upper` on one character, for the ASCII letters. */
  function Upper(c: char): char {
    if 'a' <= c <= 'z' then (c as int - 'a' as int + 'A' as int) as char else c
  }

  /** `str.replace("_", " ")`. */
  function ReplaceUnderscores(s: string): (r: string)
    ensures |r| == |s|
  {
    seq(|s|, i requires 0 <= i < |s| => if s[i] == '_' then ' ' else s[i])
  }

  /** key_to_labeltext (helper_widgets.py:115-116). `string[0]` fails on the empty key. */
  function KeyToLabelText(key: string): (text: string)
    requires |key| >= 1
    ensures |text| == |key|
  {
    ReplaceUnderscores([Upper(key[0])] + key[1..])
  }

  /** Upper-casing maps lower-case letters to upper-case ones, keeps everything else, and
      never produces or removes an underscore. */
  lemma UpperFacts(c: char)
    ensures 'a' <= c <= 'z' ==> 'A' <= Upper(c) <= 'Z' && Upper(c) as int == c as int - 32
    ensures !('a' <= c <= 'z') ==> Upper(c) == c
    ensures Upper(c) == '_' <==> c == '_'
    ensures Upper(Upper(c)) == Upper(c)
  {
  }

  /** The example of the source's comment. */
  lemma KeyToLabelTextExample()
    ensures KeyToLabelText("variable_name_string") == "Variable name string"
  {
    var key := "variable_name_string";
    var text := KeyToLabelText(key);
    assert Upper(key[0]) == 'V';
    assert text == "Variable name string";
  }

  /** The label has the key's length and no underscore; its first character is the upper
      case of the key's first character, or a space for an underscore; every later
      character is the key's, with underscores turned into spaces. */
  lemma KeyToLabelTextShape(key: string)
    requires |key| >= 1
    ensures var text := KeyToLabelText(key);
      && |text| == |key|
      && (forall i :: 0 <= i < |text| ==> text[i] != '_')
      && text[0] == (if key[0] == '_' then ' ' else Upper(key[0]))
      && (forall i :: 1 <= i < |key| ==> text[i] == if key[i] == '_' then ' ' else key[i])
  {
    var text := KeyToLabelText(key);
    var raised := [Upper(key[0])] + key[1..];
    assert forall i :: 1 <= i < |key| ==> raised[i] == key[i];
    UpperFacts(key[0]);
  }

  /** A label is its own label: it has no underscore left and its first character is
      already upper case. */
  lemma KeyToLabelTextIdempotent(key: string)
    requires |key| >= 1
    ensures KeyToLabelText(KeyToLabelText(key)) == KeyToLabelText(key)
  {
    var text := KeyToLabelText(key);
    KeyToLabelTextShape(key);
    KeyToLabelTextShape(text);
    UpperFacts(key[0]);
    UpperFacts(text[0]);
    assert text[0] == if key[0] == '_' then ' ' else Upper(key[0]);
  }
}
