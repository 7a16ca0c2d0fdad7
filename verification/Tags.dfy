/**
 * Tags as the slave reads them from its `--tags` option: Ruby's
 * `String#split(',')`, and the list of control channels a slave listens on.
 */
module Tags {
  import opened Wire

  /** The pieces of `s` between commas, empty pieces included. */
  function Fields(s: string): (r: seq<string>)
    ensures |r| >= 1
    decreases |s|
  {
    if s == [] then [""]
    else
      var rest := Fields(s[1..]);
      if s[0] == ',' then [""] + rest else [[s[0]] + rest[0]] + rest[1..]
  }

  /** `parts` joined with `sep` between consecutive elements (`Array#join`). */
  function Join(parts: seq<string>, sep: string): string
  {
    if parts == [] then ""
    else if |parts| == 1 then parts[0]
    else parts[0] + sep + Join(parts[1..], sep)
  }

  /** Ruby's split drops the empty fields at the end. */
  function DropTrailingEmpty(fs: seq<string>): (r: seq<string>)
    ensures |r| <= |fs| && r == fs[..|r|]
    ensures r == [] || r[|r| - 1] != ""
    ensures forall i :: |r| <= i < |fs| ==> fs[i] == ""
  {
    if fs == [] || fs[|fs| - 1] != "" then fs else DropTrailingEmpty(fs[..|fs| - 1])
  }

  /**
   * `s.split(',')` in Ruby: the comma-free pieces of `s`, in order, the
   * last one non-empty.
   */
  function SplitTags(s: string): (r: seq<string>)
    ensures forall i :: 0 <= i < |r| ==> ',' !in r[i]
    ensures r == [] || r[|r| - 1] != ""
  {
    FieldsHaveNoComma(s);
    DropTrailingEmpty(Fields(s))
  }

  /** No field contains the separator. */
  lemma {:induction false} FieldsHaveNoComma(s: string)
    ensures forall i :: 0 <= i < |Fields(s)| ==> ',' !in Fields(s)[i]
    decreases |s|
  {
    if s != [] {
      FieldsHaveNoComma(s[1..]);
    }
  }

  /** Joining a list with one more element in front. */
  lemma JoinCons(part: string, parts: seq<string>, sep: string)
    requires parts != []
    ensures Join([part] + parts, sep) == part + sep + Join(parts, sep)
  {
    assert ([part] + parts)[1..] == parts;
  }

  /** Joining a list whose first element grew by one character at the front. */
  lemma JoinExtendHead(c: char, parts: seq<string>, sep: string)
    requires parts != []
    ensures Join([[c] + parts[0]] + parts[1..], sep) == [c] + Join(parts, sep)
  {
    if |parts| > 1 {
      JoinCons([c] + parts[0], parts[1..], sep);
      assert parts == [parts[0]] + parts[1..];
      JoinCons(parts[0], parts[1..], sep);
    }
  }

  /** Splitting and joining back on commas gives the original string. */
  lemma {:induction false} FieldsJoinRoundTrip(s: string)
    ensures Join(Fields(s), ",") == s
    decreases |s|
  {
    if s != [] {
      var rest := Fields(s[1..]);
      FieldsJoinRoundTrip(s[1..]);
      if s[0] == ',' {
        JoinCons("", rest, ",");
      } else {
        JoinExtendHead(s[0], rest, ",");
      }
      assert [s[0]] + s[1..] == s;
    }
  }

  /** A string without a comma is a single field. */
  lemma {:induction false} FieldsOfPlainTag(t: string)
    requires ',' !in t
    ensures Fields(t) == [t]
    decreases |t|
  {
    if t != [] {
      FieldsOfPlainTag(t[1..]);
      assert [t[0]] + t[1..] == t;
    }
  }

  /** A non-empty tag without a comma splits to itself alone. */
  lemma SplitPlainTag(t: string)
    requires t != "" && ',' !in t
    ensures SplitTags(t) == [t]
  {
    FieldsOfPlainTag(t);
  }

  /** A slave started without tags listens to no tag of its own. */
  lemma SplitEmpty()
    ensures SplitTags("") == []
  {
  }

  /**
   * The control channels a slave subscribes to: one per configured tag, in
   * order, then the `_all_` channel.
   */
  function ListenChannels(tags: seq<string>): (r: seq<string>)
    ensures |r| == |tags| + 1
    ensures forall i :: 0 <= i < |tags| ==> r[i] == ControlChannel(tags[i])
    ensures r[|tags|] == ControlChannel(AllTag)
  {
    if tags == [] then [ControlChannel(AllTag)]
    else [ControlChannel(tags[0])] + ListenChannels(tags[1..])
  }

  /** A slave hears a tag's control channel when it was given that tag, or it is `_all_`. */
  lemma ListensOn(tags: seq<string>, t: string)
    ensures ControlChannel(t) in ListenChannels(tags) <==> t in tags || t == AllTag
  {
    var r := ListenChannels(tags);
    if ControlChannel(t) in r {
      var i :| 0 <= i < |r| && r[i] == ControlChannel(t);
      assert ControlPrefix + t == ControlPrefix + (if i < |tags| then tags[i] else AllTag);
      assert t == (ControlPrefix + t)[|ControlPrefix|..];
    }
    if t in tags {
      var i :| 0 <= i < |tags| && tags[i] == t;
      assert r[i] == ControlChannel(t);
    }
  }

  /**
   * A job sent to tag `t` (non-empty, without a comma) reaches a slave
   * started with `--tags t`.
   */
  lemma SingleTagReachesSlave(t: string)
    requires t != "" && ',' !in t
    ensures ControlChannel(t) in ListenChannels(SplitTags(t))
  {
    SplitPlainTag(t);
    ListensOn([t], t);
  }
}
