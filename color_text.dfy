/** The string handling around `addColorText`: the coloured fragments are joined into
    one text, each followed by ",", the text is wrapped, and every wrapped line is split
    on "," again, each piece drawn in the colour found for it in the fragment map. */
module ColorText {
  import opened JavaStrings

  datatype Option<T> = None | Some(value: T)

  /** A device RGB colour with components in 0..1. */
  datatype Color = Rgb(red: real, green: real, blue: real)

  /** `getColor`: three 0..255 components scaled to 0..1; anything else (no array, or an
      array of another length) gives black. */
  function ColorOf(components: Option<seq<real>>): Color {
    if components.Some? && |components.value| == 3 then
      Rgb(components.value[0] / 255.0, components.value[1] / 255.0, components.value[2] / 255.0)
    else
      Rgb(0.0, 0.0, 0.0)
  }

  /** Components within 0..255 give a colour within 0..1. */
  lemma ColorOfInRange(components: seq<real>)
    requires |components| == 3
    requires forall i :: 0 <= i < 3 ==> 0.0 <= components[i] <= 255.0
    ensures var c := ColorOf(Some(components));
            0.0 <= c.red <= 1.0 && 0.0 <= c.green <= 1.0 && 0.0 <= c.blue <= 1.0
  {
  }

  /** A fragment of text and the colour it is to be drawn in. */
  type Fragment = (string, Color)

  /** One piece of a drawn line and the colour it was drawn in; `None` where the map
      has no entry for the piece (`get` returns null). */
  datatype Run = Run(text: string, color: Option<Color>)

  function Keys(fragments: seq<Fragment>): (keys: seq<string>)
    ensures |keys| == |fragments|
    ensures forall i :: 0 <= i < |keys| ==> keys[i] == fragments[i].0
  {
    if fragments == [] then [] else [fragments[0].0] + Keys(fragments[1..])
  }

  /** `text.get(key)`: the colour of the first fragment whose text is `key`. */
  function Lookup(fragments: seq<Fragment>, key: string): (r: Option<Color>)
    ensures r.None? <==> forall i :: 0 <= i < |fragments| ==> fragments[i].0 != key
    ensures r.Some? ==> exists i :: 0 <= i < |fragments| && fragments[i] == (key, r.value)
  {
    if fragments == [] then None
    else if fragments[0].0 == key then Some(fragments[0].1)
    else Lookup(fragments[1..], key)
  }

  /** With distinct keys, the lookup of a key finds that key's own colour. */
  lemma {:induction false} LookupDistinct(fragments: seq<Fragment>, i: int)
    requires 0 <= i < |fragments|
    requires forall j, k :: 0 <= j < k < |fragments| ==> fragments[j].0 != fragments[k].0
    ensures Lookup(fragments, fragments[i].0) == Some(fragments[i].1)
  {
    if i > 0 {
      assert fragments[0].0 != fragments[i].0;
      LookupDistinct(fragments[1..], i - 1);
    }
  }

  /** The text `addColorText` wraps: every fragment's text followed by ",". */
  function JoinFragments(fragments: seq<Fragment>): string {
    JoinTerminated(Keys(fragments), ',')
  }

  /** A wrapped line as drawn: split on ",", each piece stripped of "," and coloured by
      its lookup. */
  function ColorRuns(line: string, fragments: seq<Fragment>): (runs: seq<Run>)
    ensures |runs| == |Split(line, ',')|
  {
    var pieces := Split(line, ',');
    seq(|pieces|, i requires 0 <= i < |pieces| => Run(Erase(pieces[i], ','), Lookup(fragments, pieces[i])))
  }

  /** Each run is a piece of the line exactly as split (no piece holds ","), coloured by
      the lookup of that piece. */
  lemma ColorRunsPieces(line: string, fragments: seq<Fragment>)
    ensures var pieces := Split(line, ',');
            var runs := ColorRuns(line, fragments);
            forall i :: 0 <= i < |runs| ==> runs[i] == Run(pieces[i], Lookup(fragments, pieces[i]))
  {
  }

  /** When the joined text stays on one line, every fragment is drawn exactly once, in
      order, in its own colour: provided no fragment holds ",", the last one is not empty
      (Java's `split` drops trailing empty pieces) and no two fragments share a text. */
  lemma ColorRunsRoundTrip(fragments: seq<Fragment>)
    requires fragments != []
    requires forall i :: 0 <= i < |fragments| ==> ',' !in fragments[i].0
    requires fragments[|fragments| - 1].0 != ""
    requires forall j, k :: 0 <= j < k < |fragments| ==> fragments[j].0 != fragments[k].0
    ensures var runs := ColorRuns(JoinFragments(fragments), fragments);
            |runs| == |fragments| &&
            forall i :: 0 <= i < |runs| ==> runs[i] == Run(fragments[i].0, Some(fragments[i].1))
  {
    var keys := Keys(fragments);
    var joined := JoinFragments(fragments);
    SplitJoin(keys, ',');
    assert Split(joined, ',') == keys;
    ColorRunsPieces(joined, fragments);
    var runs := ColorRuns(joined, fragments);
    forall i | 0 <= i < |runs|
      ensures runs[i] == Run(fragments[i].0, Some(fragments[i].1))
    {
      LookupDistinct(fragments, i);
    }
  }
}
