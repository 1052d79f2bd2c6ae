/** The `token1:token2,token1:token2,...` pair list and JavaScript's
    `String.prototype.split` on a one-character separator. */
module PairList {
  import opened Common

  /** `s.split(sep)`: the pieces between separators, always at least one. */
  function Split(s: string, sep: char): (parts: seq<string>)
    ensures |parts| >= 1
    ensures forall k :: 0 <= k < |parts| ==> sep !in parts[k]
    decreases |s|
  {
    if |s| == 0 then [""]
    else
      var rest := Split(s[1..], sep);
      if s[0] == sep then [""] + rest
      else [[s[0]] + rest[0]] + rest[1..]
  }

  /** `parts.join(sep)`, the inverse of `Split`. */
  function Join(parts: seq<string>, sep: char): string
    requires |parts| >= 1
    decreases |parts|
  {
    if |parts| == 1 then parts[0] else parts[0] + [sep] + Join(parts[1..], sep)
  }

  /** Splitting loses nothing: joining the pieces back gives the original text. */
  lemma {:induction false} JoinSplit(s: string, sep: char)
    ensures Join(Split(s, sep), sep) == s
    decreases |s|
  {
    if |s| > 0 {
      var rest := Split(s[1..], sep);
      JoinSplit(s[1..], sep);
      if s[0] == sep {
        assert Split(s, sep) == [""] + rest;
        assert ([""] + rest)[1..] == rest;
      } else {
        var parts := Split(s, sep);
        assert parts == [[s[0]] + rest[0]] + rest[1..];
        if |rest| > 1 {
          assert parts[1..] == rest[1..];
          assert Join(rest, sep) == rest[0] + [sep] + Join(rest[1..], sep);
        }
      }
    }
  }

  /** Separator-free pieces are recovered exactly by splitting their join. */
  lemma {:induction false} SplitJoin(parts: seq<string>, sep: char)
    requires |parts| >= 1
    requires forall k :: 0 <= k < |parts| ==> sep !in parts[k]
    ensures Split(Join(parts, sep), sep) == parts
    decreases |parts|, |parts[0]|
  {
    var p := parts[0];
    if |p| > 0 {
      // peel the first character off the first piece
      var parts' := [p[1..]] + parts[1..];
      assert parts'[1..] == parts[1..];
      assert forall k :: 0 <= k < |parts'| ==> sep !in parts'[k] by {
        forall k | 0 <= k < |parts'| ensures sep !in parts'[k] {
          if k == 0 { assert forall c :: c in p[1..] ==> c in p; } else { assert parts'[k] == parts[k]; }
        }
      }
      SplitJoin(parts', sep);
      var s := Join(parts, sep);
      if |parts| == 1 {
        assert s == p && s[1..] == Join(parts', sep);
      } else {
        assert s == p + [sep] + Join(parts[1..], sep);
        assert Join(parts', sep) == p[1..] + [sep] + Join(parts[1..], sep);
        assert s[1..] == Join(parts', sep);
      }
      assert s[0] == p[0] && p[0] != sep;
      assert [p[0]] + p[1..] == p;
    } else if |parts| > 1 {
      SplitJoin(parts[1..], sep);
      var s := Join(parts, sep);
      assert s == [sep] + Join(parts[1..], sep);
      assert s[1..] == Join(parts[1..], sep);
      assert [""] + parts[1..] == parts;
    }
  }

  /** `pair.split(":")[0]`: the text before the first colon (all of it when there is none). */
  function Token1(pair: string): string
  {
    Split(pair, ':')[0]
  }

  /** `pair.split(":")[1]`: the text between the first and the second colon,
      `undefined` when the entry has no colon. */
  function Token2(pair: string): Option<string>
  {
    var parts := Split(pair, ':');
    if |parts| > 1 then Some(parts[1]) else None
  }

  /** Where the two tokens sit in the entry: token1 is the colon-free text before
      the first colon; token2 exists exactly when there is a colon and is the
      colon-free text that follows it, up to the next colon or the end. */
  lemma PairTokens(pair: string)
    ensures ':' !in Token1(pair)
    ensures Token2(pair).None? <==> ':' !in pair
    ensures Token2(pair).None? ==> Token1(pair) == pair
    ensures Token2(pair).Some? ==>
      ':' !in Token2(pair).value &&
      exists rest: string :: (rest == [] || rest[0] == ':') &&
        pair == Token1(pair) + [':'] + Token2(pair).value + rest
  {
    var parts := Split(pair, ':');
    JoinSplit(pair, ':');
    if |parts| == 1 {
      assert pair == parts[0];
    } else {
      var rest := if |parts| == 2 then [] else [':'] + Join(parts[2..], ':');
      assert Join(parts[1..], ':') == parts[1] + rest by {
        if |parts| > 2 { assert parts[1..][1..] == parts[2..]; }
      }
      assert pair == Token1(pair) + [':'] + Token2(pair).value + rest;
      assert ':' in pair by { assert pair[|Token1(pair)|] == ':'; }
    }
  }

  /** The entries of a comma-separated pair list. */
  function PairEntries(list: string): (entries: seq<string>)
    ensures |entries| >= 1
    ensures Join(entries, ',') == list
    ensures forall k :: 0 <= k < |entries| ==> ',' !in entries[k]
  {
    JoinSplit(list, ',');
    Split(list, ',')
  }

  /** The address check applied to both tokens of an entry; an undefined
      token2 never passes it. */
  predicate ValidPair(isAddress: string -> bool, pair: string)
  {
    isAddress(Token1(pair)) && Token2(pair).Some? && isAddress(Token2(pair).value)
  }
}
