/**
 * The access key the page reads from its own address
 * (client/src/App.js): `search ? (search.includes("key") ? search.split("=")[1] : "") : ""`.
 * `None` stands for `undefined`, the value of `split("=")[1]` when the
 * search string holds no `=`.
 */
module QueryKey {

  import opened Wrappers
  import opened Text

  function Key(search: string): (key: Option<string>)
    ensures search == "" ==> key == Some("")
    ensures !Contains(search, "key") ==> key == Some("")
    ensures key.None? <==> Contains(search, "key") && '=' !in search
    ensures key.Some? ==> '=' !in key.value
  {
    if search == "" then Some("")
    else if Contains(search, "key") then
      var parts := Split(search, '=');
      if |parts| > 1 then Some(parts[1]) else None
    else Some("")
  }

  /** A piece ended by `=` or by the end of the string comes out first. */
  lemma FirstPiece(value: string, after: string)
    requires '=' !in value
    requires after == "" || after[0] == '='
    ensures Split(value + after, '=')[0] == value
  {
    if after == "" {
      assert value + after == value;
      SplitWithoutSeparator(value, '=');
    } else {
      assert value + after == value + ['='] + after[1..];
      SplitAtFirst(value, '=', after[1..]);
    }
  }

  /** Splitting on `=` puts the text between the first and the second `=` (or the end) second. */
  lemma SecondPiece(before: string, value: string, after: string)
    requires '=' !in before && '=' !in value
    requires after == "" || after[0] == '='
    ensures var parts := Split(before + "=" + value + after, '=');
      |parts| > 1 && parts[1] == value
  {
    var rest := value + after;
    assert before + "=" + value + after == before + ['='] + rest;
    SplitAtFirst(before, '=', rest);
    FirstPiece(value, after);
  }

  /**
   * When the search string names a key, the key is the text between the
   * first and the second `=`, or up to the end when there is no second one.
   */
  lemma KeyIsSecondSegment(search: string, before: string, value: string, after: string)
    requires Contains(search, "key")
    requires search == before + "=" + value + after
    requires '=' !in before && '=' !in value
    requires after == "" || after[0] == '='
    ensures Key(search) == Some(value)
  {
    SecondPiece(before, value, after);
    assert search != "";
  }

  /** The usual address `?key=secret` yields `secret`. */
  lemma KeyOfPlainQuery(secret: string)
    requires '=' !in secret
    ensures Key("?key=" + secret) == Some(secret)
  {
    assert OccursAt("?key=" + secret, "key", 1);
    KeyIsSecondSegment("?key=" + secret, "?key", secret, "");
  }
}
