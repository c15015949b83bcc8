/**
  Locating and decoding the JSON payload of an AI reply, the rule both
  backend services use: from the first opening bracket to the last closing
  one, decoded by `json.loads`.
*/
module Replies {
  import opened Wrappers
  import opened Text
  import opened Json
  import opened Foreign

  // ---------------------------------------------------------------------
  // The JSON span rule
  // ---------------------------------------------------------------------

  /**
    `find(open)` and `rfind(close) + 1`, accepted when the end lies after
    the start: the candidate JSON text is `s[i..j]`.
  */
  function JsonSpan(s: string, open: char, close: char): (r: Option<(nat, nat)>)
    ensures r.Some? ==> r.value.0 < r.value.1 <= |s|
    ensures r.Some? ==> s[r.value.0] == open && open !in s[..r.value.0]
    ensures r.Some? ==> s[r.value.1 - 1] == close && close !in s[r.value.1..]
  {
    var i := IndexOf(s, open);
    var l := LastIndexOf(s, close);
    if i != -1 && l + 1 > i then Some((i, l + 1)) else None
  }

  /** A span exists exactly when some `open` is at or before some `close`. */
  lemma JsonSpanExists(s: string, open: char, close: char)
    ensures JsonSpan(s, open, close).Some? <==>
            exists i, j :: 0 <= i <= j < |s| && s[i] == open && s[j] == close
  {
    var r := JsonSpan(s, open, close);
    if r.Some? {
      var i, j := r.value.0, r.value.1 - 1;
      assert 0 <= i <= j < |s| && s[i] == open && s[j] == close;
    }
    if exists i, j :: 0 <= i <= j < |s| && s[i] == open && s[j] == close {
      var i0, j0 :| 0 <= i0 <= j0 < |s| && s[i0] == open && s[j0] == close;
      var i := IndexOf(s, open);
      var l := LastIndexOf(s, close);
      assert open in s && close in s;
    }
  }

  /** The slice a span selects: it starts with `open` and ends with `close`. */
  lemma JsonSpanSlice(s: string, open: char, close: char)
    requires JsonSpan(s, open, close).Some?
    ensures var (i, j) := JsonSpan(s, open, close).value;
            |s[i..j]| > 0 && s[i..j][0] == open && s[i..j][|s[i..j]| - 1] == close
  {
  }

  /** `json.loads(s)` when it yields a dict; None when it raises or yields another value. */
  function DecodeObject(o: Oracles, s: string): Option<map<string, Json>> {
    match o.decode(s)
    case Some(JObj(d)) => Some(d)
    case _ => None
  }

}
