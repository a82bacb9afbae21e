/**
 * The topic list: `parse_tags` turns the configured NEWS_TAGS text into the
 * ordered list of queries the bot polls.
 */
module Tags {
  import opened Wrappers
  import opened Text

  /** Strip every item and keep the ones that are not empty, in order. */
  function Clean(items: seq<string>): (r: seq<string>)
    ensures |r| <= |items|
    ensures forall i :: 0 <= i < |r| ==> r[i] != [] && IsTrimmed(r[i])
  {
    if items == [] then []
    else
      var t := Trim(items[0]);
      var rest := Clean(items[1..]);
      if t != [] then [t] + rest else rest
  }

  /** A single item is kept, stripped, exactly when it is not blank. */
  lemma CleanSingle(x: string)
    ensures Clean([x]) == if Trim(x) == [] then [] else [Trim(x)]
  {
    assert [x][0] == x && [x][1..] == [];
  }

  /** Cleaning works item by item and keeps the order: cleaning a concatenation concatenates the cleaned parts. */
  lemma {:induction false} CleanAppend(a: seq<string>, b: seq<string>)
    ensures Clean(a + b) == Clean(a) + Clean(b)
  {
    if a == [] {
      assert a + b == b;
    } else {
      assert (a + b)[0] == a[0] && (a + b)[1..] == a[1..] + b;
      CleanAppend(a[1..], b);
    }
  }

  /** Cleaning around one item: what comes before it, the item itself, what comes after it. */
  lemma {:induction false} CleanAround(items: seq<string>, i: nat)
    requires i < |items|
    ensures Clean(items) == Clean(items[..i]) + Clean([items[i]]) + Clean(items[i + 1..])
  {
    assert items == items[..i] + ([items[i]] + items[i + 1..]);
    CleanAppend(items[..i], [items[i]] + items[i + 1..]);
    CleanAppend([items[i]], items[i + 1..]);
  }

  /** Every item that is not blank is kept, stripped. */
  lemma CleanKeeps(items: seq<string>, i: nat)
    requires i < |items| && Trim(items[i]) != []
    ensures Trim(items[i]) in Clean(items)
  {
    CleanAround(items, i);
    CleanSingle(items[i]);
    var a := Clean(items[..i]);
    assert Clean(items)[|a|] == Trim(items[i]);
  }

  /**
   * `parse_tags(raw)`. A stripped text that starts with `[` is first given
   * to the JSON decoder; `decoded` is what that decoder produced, each array
   * element already passed through `str`, or None when decoding failed.
   * Otherwise, and after a failed decoding, the text is split on commas.
   */
  function ParseTags(raw: string, decoded: Option<seq<string>>): (r: seq<string>)
    ensures Trim(raw) == [] ==> r == []
    ensures forall i :: 0 <= i < |r| ==> r[i] != [] && IsTrimmed(r[i])
    ensures (Trim(raw) != [] && (Trim(raw)[0] != '[' || decoded.None?)) ==>
              (forall i :: 0 <= i < |r| ==> ',' !in r[i])
    ensures (Trim(raw) != [] && (Trim(raw)[0] != '[' || decoded.None?)) ==>
              r == Clean(Split(Trim(raw), ','))
  {
    var t := Trim(raw);
    if t == [] then []
    else if t[0] == '[' && decoded.Some? then Clean(decoded.value)
    else
      CleanNoNewChar(Split(t, ','), ',');
      Clean(Split(t, ','))
  }

  /** Stripping never introduces a character. */
  lemma TrimNoNewChar(x: string, c: char)
    requires c !in x
    ensures c !in Trim(x)
  {
    var s := TrimStart(x);
    var e := TrimEnd(s);
    forall k | 0 <= k < |e| ensures e[k] != c {
      assert e[k] == s[k] == x[|x| - |s| + k];
    }
  }

  /** Cleaning never introduces a character that no item contains. */
  lemma {:induction false} CleanNoNewChar(items: seq<string>, c: char)
    requires forall i :: 0 <= i < |items| ==> c !in items[i]
    ensures forall j :: 0 <= j < |Clean(items)| ==> c !in Clean(items)[j]
  {
    if items != [] {
      TrimNoNewChar(items[0], c);
      CleanNoNewChar(items[1..], c);
    }
  }

  lemma {:induction false} CleanTrimmed(items: seq<string>)
    requires forall i :: 0 <= i < |items| ==> items[i] != [] && IsTrimmed(items[i])
    ensures Clean(items) == items
  {
    if items != [] {
      TrimFixesTrimmed(items[0]);
      assert Trim(items[0]) == items[0] != [];
      CleanTrimmed(items[1..]);
      calc {
        Clean(items);
        [items[0]] + Clean(items[1..]);
        [items[0]] + items[1..];
        items;
      }
    }
  }

  /**
   * The comma path gives back the topics it was written from: a
   * comma-joined list of non-empty, stripped, comma-free topics parses to
   * exactly that list, in the same order.
   */
  lemma ParseTagsCommaRoundTrip(tags: seq<string>, decoded: Option<seq<string>>)
    requires forall i :: 0 <= i < |tags| ==> tags[i] != [] && IsTrimmed(tags[i]) && ',' !in tags[i]
    requires tags != [] && tags[0][0] == '[' ==> decoded.None?
    ensures ParseTags(Join(tags, ','), decoded) == tags
  {
    if tags != [] {
      var raw := Join(tags, ',');
      JoinEnds(tags);
      TrimFixesTrimmed(raw);
      SplitJoin(tags, ',');
      CleanTrimmed(tags);
    }
  }

  /** A join of non-empty stripped pieces starts with the first piece's first character and is stripped. */
  lemma {:induction false} JoinEnds(tags: seq<string>)
    requires tags != []
    requires forall i :: 0 <= i < |tags| ==> tags[i] != [] && IsTrimmed(tags[i])
    ensures var j := Join(tags, ','); j != [] && j[0] == tags[0][0] && IsTrimmed(j)
  {
    if |tags| > 1 {
      JoinEnds(tags[1..]);
      var j := Join(tags, ',');
      var rest := Join(tags[1..], ',');
      assert j == tags[0] + [','] + rest;
      assert j[|j| - 1] == rest[|rest| - 1];
    }
  }
}
