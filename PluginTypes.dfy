/**
 * Plugin types the test passes around without looking inside them: a
 * StringWarp wraps one path string (read back with getItem().toString()),
 * and a BuildToTest wraps the name of the selected vendor.
 */
module PluginTypes {
  datatype StringWarp = StringWarp(item: string)

  datatype BuildToTest = BuildToTest(selectedVendor: string)

  /** The strings inside a list of wrappers, in list order. */
  function Items(ws: seq<StringWarp>): (r: seq<string>)
    ensures |r| == |ws|
    ensures forall i :: 0 <= i < |ws| ==> r[i] == ws[i].item
  {
    if ws == [] then [] else [ws[0].item] + Items(ws[1..])
  }
}
