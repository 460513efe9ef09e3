/** `format_url`: a request URL built from a base and `key=value` pairs
    (src/weather.rs and src/api.rs hold the same function). */
module Query {

  /** One query parameter, already rendered to text. */
  type Pair = (string, string)

  /** `k=v`. */
  function Field(p: Pair): string {
    p.0 + "=" + p.1
  }

  /** The fields of `items` separated by `&`. */
  function Joined(items: seq<Pair>): string
    decreases |items|
  {
    if |items| == 0 then ""
    else if |items| == 1 then Field(items[0])
    else Field(items[0]) + "&" + Joined(items[1..])
  }

  /** What the loop has appended after the first `n` items: every field followed by `&`. */
  function Terminated(items: seq<Pair>): string
    decreases |items|
  {
    if items == [] then "" else Terminated(items[..|items| - 1]) + Field(items[|items| - 1]) + "&"
  }

  /** `String::pop`, result discarded: drops the last character, if any. */
  function Pop(s: string): (r: string)
    ensures s == [] ==> r == []
    ensures s != [] ==> r == s[..|s| - 1]
  {
    if s == [] then s else s[..|s| - 1]
  }

  /** The URL `format_url` produces: with parameters, the base followed by the
      `&`-joined fields; with none, the base minus its last character. */
  function Url(base: string, items: seq<Pair>): string {
    if items == [] then Pop(base) else base + Joined(items)
  }

  /** Terminating every field with `&` gives the joined fields plus one `&`. */
  lemma {:induction false} TerminatedIsJoinedPlusAmp(items: seq<Pair>)
    requires items != []
    ensures Terminated(items) == Joined(items) + "&"
    decreases |items|
  {
    var n := |items|;
    if n == 1 {
      assert items[..0] == [];
    } else {
      var init := items[..n - 1];
      TerminatedIsJoinedPlusAmp(init);
      JoinedSnoc(init, items[n - 1]);
      assert init + [items[n - 1]] == items;
    }
  }

  /** Appending one more field to a non-empty join adds `&` and the field. */
  lemma {:induction false} JoinedSnoc(items: seq<Pair>, p: Pair)
    requires items != []
    ensures Joined(items + [p]) == Joined(items) + "&" + Field(p)
    decreases |items|
  {
    if |items| > 1 {
      JoinedSnoc(items[1..], p);
      assert (items + [p])[1..] == items[1..] + [p];
    } else {
      assert (items + [p])[1..] == [p];
    }
  }

  /** `format_url`: the loop rebinds `url` to itself plus `k=v&` for each item,
      then pops the last character. */
  method FormatUrl(base: string, items: seq<Pair>) returns (url: string)
    ensures url == Url(base, items)
    ensures items != [] ==> url == base + Joined(items)
    ensures items == [] ==> url == Pop(base)
  {
    url := base;
    for i := 0 to |items|
      invariant url == base + Terminated(items[..i])
    {
      assert items[..i + 1][..i] == items[..i];
      url := url + items[i].0 + "=" + items[i].1 + "&";
    }
    assert items[..|items|] == items;
    if items != [] {
      TerminatedIsJoinedPlusAmp(items);
      assert url == (base + Joined(items)) + "&";
    }
    url := Pop(url);
  }

  /** The unit test of `format_url`. */
  lemma FormatUrlTest()
    ensures Url("https://pornhub.com?", [("aa", "bb"), ("aaa", "bbb")])
            == "https://pornhub.com?aa=bb&aaa=bbb"
  {
  }

  /** With no parameters the last character of the base is lost (normally the
      `?`), and an empty base stays empty. */
  lemma FormatUrlNoItems(base: string)
    ensures |Url(base, [])| == if base == [] then 0 else |base| - 1
    ensures base != [] ==> base == Url(base, []) + [base[|base| - 1]]
  {
  }
}
