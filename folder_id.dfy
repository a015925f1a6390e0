/** `extract_folder_id`: the Drive folder id out of a folder URL, or the
    argument itself, trimmed, when it is already an id. */
module FolderId {
  import opened Wrappers

  /** The character class `[A-Za-z0-9_-]` of a folder id. */
  predicate IsIdChar(c: char) {
    ('A' <= c <= 'Z') || ('a' <= c <= 'z') || ('0' <= c <= '9') || c == '_' || c == '-'
  }

  /** What Python's `str.strip()` removes: the Unicode whitespace characters. */
  predicate IsSpace(c: char) {
    ('\t' <= c <= '\r') || ('\U{1C}' <= c <= ' ') || c == '\U{85}' || c == '\U{A0}'
    || c == '\U{1680}' || ('\U{2000}' <= c <= '\U{200A}') || c == '\U{2028}' || c == '\U{2029}'
    || c == '\U{202F}' || c == '\U{205F}' || c == '\U{3000}'
  }

  const Marker: string := "folders/"

  /** The pattern `folders/([A-Za-z0-9_-]+)` matches at position `p` of `s`. */
  predicate MatchesAt(s: string, p: nat) {
    p + |Marker| < |s| && s[p..p + |Marker|] == Marker && IsIdChar(s[p + |Marker|])
  }

  /** End of the greedy run of id characters that starts at `i`. */
  function IdRunEnd(s: string, i: nat): (e: nat)
    requires i <= |s|
    ensures i <= e <= |s|
    ensures forall j :: i <= j < e ==> IsIdChar(s[j])
    ensures e == |s| || !IsIdChar(s[e])
    decreases |s| - i
  {
    if i < |s| && IsIdChar(s[i]) then IdRunEnd(s, i + 1) else i
  }

  /** `re.search`: the leftmost position at or after `from` where the pattern matches. */
  function FindMatch(s: string, from: nat): (r: Option<nat>)
    ensures r.Some? ==> from <= r.value && MatchesAt(s, r.value)
    ensures r.Some? ==> forall p :: from <= p < r.value ==> !MatchesAt(s, p)
    ensures r.None? ==> forall p :: from <= p ==> !MatchesAt(s, p)
    decreases |s| - from
  {
    if from + |Marker| >= |s| then None
    else if MatchesAt(s, from) then Some(from)
    else FindMatch(s, from + 1)
  }

  /** Index of the first non-whitespace character at or after `i`. */
  function SkipSpaces(s: string, i: nat): (k: nat)
    requires i <= |s|
    ensures i <= k <= |s|
    ensures forall j :: i <= j < k ==> IsSpace(s[j])
    ensures k == |s| || !IsSpace(s[k])
    decreases |s| - i
  {
    if i < |s| && IsSpace(s[i]) then SkipSpaces(s, i + 1) else i
  }

  /** Index just after the last non-whitespace character before `j`, not below `lo`. */
  function SkipSpacesBack(s: string, lo: nat, j: nat): (k: nat)
    requires lo <= j <= |s|
    ensures lo <= k <= j
    ensures forall t :: k <= t < j ==> IsSpace(s[t])
    ensures k == lo || !IsSpace(s[k - 1])
    decreases j - lo
  {
    if lo < j && IsSpace(s[j - 1]) then SkipSpacesBack(s, lo, j - 1) else j
  }

  /** `s.strip()`: `s` without its leading and trailing whitespace. */
  function Strip(s: string): (r: string)
    ensures r == "" || (!IsSpace(r[0]) && !IsSpace(r[|r| - 1]))
    ensures exists a, b ::
      && 0 <= a <= b <= |s| && r == s[a..b]
      && (forall t :: 0 <= t < a ==> IsSpace(s[t]))
      && (forall t :: b <= t < |s| ==> IsSpace(s[t]))
  {
    var a := SkipSpaces(s, 0);
    var b := SkipSpacesBack(s, a, |s|);
    s[a..b]
  }

  function ExtractFolderId(input: string): (id: string)
    ensures FindMatch(input, 0).Some? ==> id != [] && forall j :: 0 <= j < |id| ==> IsIdChar(id[j])
    ensures FindMatch(input, 0).Some? ==>
      var start := FindMatch(input, 0).value + |Marker|;
      start + |id| <= |input| && input[start..start + |id|] == id
      && (start + |id| == |input| || !IsIdChar(input[start + |id|]))
    ensures FindMatch(input, 0).None? ==> id == Strip(input)
  {
    match FindMatch(input, 0)
    case Some(p) => input[p + |Marker|..IdRunEnd(input, p + |Marker|)]
    case None => Strip(input)
  }

  /** A string whose ends are not whitespace is its own strip. */
  lemma StripTrimmed(s: string)
    requires s == "" || (!IsSpace(s[0]) && !IsSpace(s[|s| - 1]))
    ensures Strip(s) == s
  {
    if s != "" {
      assert SkipSpaces(s, 0) == 0;
      assert SkipSpacesBack(s, 0, |s|) == |s|;
    }
  }

  /** A folder id contains no `/`, so the pattern cannot match inside it. */
  lemma NoMatchInId(id: string)
    requires forall j :: 0 <= j < |id| ==> IsIdChar(id[j])
    ensures FindMatch(id, 0).None?
  {
    forall p: nat ensures !MatchesAt(id, p) {
      if p + |Marker| < |id| {
        assert id[p..p + |Marker|][7] == id[p + 7];
        assert IsIdChar(id[p + 7]);
      }
    }
  }

  /** A match inside a slice of `s` is a match in `s` itself. */
  lemma MatchInSlice(s: string, a: nat, b: nat, p: nat)
    requires a <= b <= |s| && MatchesAt(s[a..b], p)
    ensures MatchesAt(s, a + p)
  {
    var inSlice, inWhole := s[a..b][p..p + |Marker|], s[a + p..a + p + |Marker|];
    forall t | 0 <= t < |Marker| ensures inSlice[t] == inWhole[t] {
      assert s[a..b][p + t] == s[a + p + t];
    }
    assert inSlice == inWhole;
  }

  /** Applying `extract_folder_id` to its own result changes nothing. */
  lemma {:induction false} ExtractFolderIdIdempotent(input: string)
    ensures ExtractFolderId(ExtractFolderId(input)) == ExtractFolderId(input)
  {
    var id := ExtractFolderId(input);
    if FindMatch(input, 0).Some? {
      NoMatchInId(id);
      StripTrimmed(id);
    } else {
      var a, b :| 0 <= a <= b <= |input| && id == input[a..b];
      forall p: nat | MatchesAt(id, p) ensures false {
        MatchInSlice(input, a, b, p);
      }
      assert FindMatch(id, 0).None?;
      StripTrimmed(id);
    }
  }
}
