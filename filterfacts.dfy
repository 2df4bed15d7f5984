/**
 * The filter string buildFilterSpec writes, read back.
 *
 * The dialog reads the pattern field of a COMDLG_FILTERSPEC entry as
 * wildcard patterns separated by ';'. `Split` is that reading; the lemmas
 * show that the joined string gives back exactly one "*.ext" pattern per
 * extension, in order, as long as no extension itself contains ';'.
 */
module FilterFacts {
  import opened Com
  import opened WinFilePicker

  /** The ';'-separated fields of a string; a string without ';' is one field. */
  function Split(text: string): (fields: seq<string>)
    ensures |fields| > 0
    decreases |text|
  {
    if |text| == 0 then [""]
    else
      var rest := Split(text[1..]);
      if text[0] == ';' then [""] + rest
      else [[text[0]] + rest[0]] + rest[1..]
  }

  /** A prefix without ';' extends the first field of whatever follows it. */
  lemma {:induction false} SplitPlainPrefix(prefix: string, tail: string)
    requires ';' !in prefix
    ensures Split(prefix + tail) == [prefix + Split(tail)[0]] + Split(tail)[1..]
    decreases |prefix|
  {
    if |prefix| == 0 {
      assert prefix + tail == tail;
      assert prefix + Split(tail)[0] == Split(tail)[0];
      assert [Split(tail)[0]] + Split(tail)[1..] == Split(tail);
    } else {
      var text := prefix + tail;
      assert text[0] == prefix[0];
      assert text[1..] == prefix[1..] + tail;
      assert ';' !in prefix[1..] by {
        assert forall c :: c in prefix[1..] ==> c in prefix;
      }
      SplitPlainPrefix(prefix[1..], tail);
      assert [prefix[0]] + (prefix[1..] + Split(tail)[0]) == prefix + Split(tail)[0];
    }
  }

  /** Splitting undoes joining, for a non-empty list of parts none of which contains ';'. */
  lemma {:induction false} SplitJoin(parts: seq<string>)
    requires |parts| > 0
    requires forall i :: 0 <= i < |parts| ==> ';' !in parts[i]
    ensures Split(Join(parts)) == parts
    decreases |parts|
  {
    if |parts| == 1 {
      SplitPlainPrefix(parts[0], "");
      assert parts[0] + "" == parts[0];
    } else {
      var rest := parts[1..];
      SplitJoin(rest);
      var tail := ";" + Join(rest);
      assert tail[1..] == Join(rest);
      assert Split(tail) == [""] + rest;
      SplitPlainPrefix(parts[0], tail);
      assert parts[0] + tail == Join(parts);
      assert parts[0] + "" == parts[0];
    }
  }

  /**
   * The filter installed for a non-empty list of extensions is one
   * "Supported Files" entry whose patterns read back as "*.ext" for each
   * extension, in the given order.
   */
  lemma FilterSpecRoundTrip(extensions: seq<string>)
    requires |extensions| > 0
    requires forall i :: 0 <= i < |extensions| ==> ';' !in extensions[i]
    ensures |FilterFor(extensions)| == 1 && FilterFor(extensions)[0].name == "Supported Files"
    ensures Split(FilterFor(extensions)[0].spec) == Patterns(extensions)
    ensures forall i :: 0 <= i < |extensions| ==> Split(FilterFor(extensions)[0].spec)[i] == "*." + extensions[i]
  {
    var patterns := Patterns(extensions);
    forall i | 0 <= i < |patterns|
      ensures ';' !in patterns[i]
    {
      assert patterns[i] == "*." + extensions[i];
      assert forall k :: 2 <= k < |patterns[i]| ==> patterns[i][k] == extensions[i][k - 2];
    }
    SplitJoin(patterns);
  }

  /** The filter for jpg, png and gif, written out. */
  lemma FilterForImages()
    ensures FilterFor(["jpg", "png", "gif"]) == [FilterSpec("Supported Files", "*.jpg;*.png;*.gif")]
  {
    var patterns := Patterns(["jpg", "png", "gif"]);
    assert patterns[0] == "*.jpg" && patterns[1] == "*.png" && patterns[2] == "*.gif";
    assert patterns == ["*.jpg", "*.png", "*.gif"];
    assert patterns[1..] == ["*.png", "*.gif"] && patterns[1..][1..] == ["*.gif"];
    assert Join(patterns[1..][1..]) == "*.gif";
    assert Join(patterns[1..]) == "*.png;*.gif";
    assert Join(patterns) == "*.jpg;*.png;*.gif";
  }
}
