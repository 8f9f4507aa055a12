/**
 * The font picker: the catalog of the fifty most popular families, the
 * stylesheet address built for a family, and the picker's state as a
 * selection changes it. The document head is modelled as the list of
 * stylesheet addresses linked from it.
 */
module FontPicker {
  import opened Wrappers
  import opened JsSemantics

  /** One catalog entry: a family name and its variant names. */
  datatype FontItem = FontItem(family: string, variants: seq<string>)

  /** How many of the fetched families the catalog keeps. */
  const CatalogSize: nat := 50

  /** `items.slice(0, 50)`: the first fifty entries, in the order fetched. */
  function TopFonts(items: seq<FontItem>): (catalog: seq<FontItem>)
    ensures |catalog| == if |items| < CatalogSize then |items| else CatalogSize
    ensures catalog <= items
  {
    if |items| <= CatalogSize then items else items[..CatalogSize]
  }

  /** `s.indexOf(c)`: the position of the first `c` in `s`, or -1 if there is none. */
  function IndexOf(s: string, c: char): (i: int)
    ensures -1 <= i < |s|
    ensures i == -1 <==> c !in s
    ensures i >= 0 ==> s[i] == c && c !in s[..i]
  {
    if s == [] then -1
    else if s[0] == c then 0
    else
      var j := IndexOf(s[1..], c);
      assert s == [s[0]] + s[1..];
      if j == -1 then -1
      else
        assert s[..j + 1] == [s[0]] + s[1..][..j];
        j + 1
  }

  /**
   * `s.replace(from, to)` with a one-character string pattern: only the first
   * occurrence is replaced.
   */
  function ReplaceFirst(s: string, from: char, to: char): (r: string)
    ensures var i := IndexOf(s, from);
      r == if i < 0 then s else s[..i] + [to] + s[i + 1..]
  {
    if s == [] then []
    else if s[0] == from then [to] + s[1..]
    else
      var rest := ReplaceFirst(s[1..], from, to);
      assert s == [s[0]] + s[1..];
      var j := IndexOf(s[1..], from);
      assert j >= 0 ==> s[..j + 1] == [s[0]] + s[1..][..j] && s[j + 2..] == s[1..][j + 1..];
      [s[0]] + rest
  }

  /** The family names of the URL keep every space after the first one. */
  lemma ReplaceFirstKeepsLaterSpaces(s: string, i: nat, j: nat)
    requires i < j < |s| && s[i] == ' ' && s[j] == ' '
    ensures ReplaceFirst(s, ' ', '+')[j] == ' '
    ensures |ReplaceFirst(s, ' ', '+')| == |s|
  {
    var k := IndexOf(s, ' ');
    assert s[..k] + [' '] + s[k + 1..] == s;
    assert ' ' in s[..j];
  }

  /** Replacing the first space and then the first plus restores a name that had no plus. */
  lemma {:induction false} ReplaceFirstRoundTrip(s: string)
    requires '+' !in s
    ensures ReplaceFirst(ReplaceFirst(s, ' ', '+'), '+', ' ') == s
  {
    if s != [] && s[0] != ' ' {
      ReplaceFirstRoundTrip(s[1..]);
    }
  }

  const UrlPrefix := "https://fonts.googleapis.com/css2?family="
  const UrlSuffix := ":ital,wght@0,400;0,700;1,400;1,700&display=swap"

  /** The stylesheet address for a family: regular, bold and both italics. */
  function StylesheetUrl(family: string): (url: string)
    ensures |url| == |UrlPrefix| + |family| + |UrlSuffix|
    ensures url[..|UrlPrefix|] == UrlPrefix
    ensures url[|url| - |UrlSuffix|..] == UrlSuffix
    ensures url[|UrlPrefix|..|url| - |UrlSuffix|] == ReplaceFirst(family, ' ', '+')
  {
    var encoded := ReplaceFirst(family, ' ', '+');
    var url := UrlPrefix + encoded + UrlSuffix;
    assert url[..|UrlPrefix|] == UrlPrefix;
    assert url[|UrlPrefix|..|url| - |UrlSuffix|] == encoded;
    url
  }

  /** The family a stylesheet address asks for, read back from its middle part. */
  function FamilyOf(url: string): Option<string> {
    if |url| >= |UrlPrefix| + |UrlSuffix|
      && url[..|UrlPrefix|] == UrlPrefix
      && url[|url| - |UrlSuffix|..] == UrlSuffix
    then Some(ReplaceFirst(url[|UrlPrefix|..|url| - |UrlSuffix|], '+', ' '))
    else None
  }

  /** A family without a plus sign is recovered from its stylesheet address. */
  lemma FamilyOfStylesheetUrl(family: string)
    requires '+' !in family
    ensures FamilyOf(StylesheetUrl(family)) == Some(family)
  {
    ReplaceFirstRoundTrip(family);
  }

  class FontPickerState {
    var fonts: seq<FontItem>      // the catalog offered for selection
    var selectedFont: string      // "" while nothing is selected
    var head: seq<string>         // the stylesheet links in the document head, in order

    constructor (initialHead: seq<string>)
      ensures fonts == [] && selectedFont == "" && head == initialHead
    {
      fonts := [];
      selectedFont := "";
      head := initialHead;
    }

    /**
     * `loadFonts`: `fetched` is the list of families the catalog request
     * returned, or None when the request or its parsing failed, in which case
     * nothing changes.
     */
    method LoadFonts(fetched: Option<seq<FontItem>>)
      modifies this
      ensures fetched.Some? ==> fonts == TopFonts(fetched.value)
      ensures fetched.None? ==> fonts == old(fonts)
      ensures selectedFont == old(selectedFont) && head == old(head)
    {
      if fetched.Some? {
        fonts := TopFonts(fetched.value);
      }
    }

    /** `handleFontChange`: selects the family and links its stylesheet, even if it is already linked. */
    method FontChange(family: string)
      modifies this
      ensures selectedFont == family
      ensures head == old(head) + [StylesheetUrl(family)]
      ensures fonts == old(fonts)
    {
      selectedFont := family;
      head := head + [StylesheetUrl(family)];
    }

    /**
     * `handleRandomFont`: selects the catalog entry at `Math.floor(random *
     * fonts.length)`. With an empty catalog reading the entry throws and
     * nothing changes, which `ok == false` reports.
     */
    method RandomFont(random: real) returns (ok: bool)
      requires 0.0 <= random < 1.0
      modifies this
      ensures fonts == old(fonts)
      ensures ok <==> |fonts| > 0
      ensures ok ==>
        && selectedFont == fonts[RandomIndex(random, |fonts|)].family
        && head == old(head) + [StylesheetUrl(selectedFont)]
      ensures !ok ==> selectedFont == old(selectedFont) && head == old(head)
    {
      var index := RandomIndex(random, |fonts|);
      if index >= |fonts| {
        return false;
      }
      FontChange(fonts[index].family);
      ok := true;
    }
  }

  /** Selecting the same family twice links its stylesheet twice. */
  method SelectTwice(picker: FontPickerState, family: string)
    modifies picker
    ensures picker.head == old(picker.head) + [StylesheetUrl(family), StylesheetUrl(family)]
    ensures picker.selectedFont == family
  {
    picker.FontChange(family);
    picker.FontChange(family);
  }

  /** A picker whose catalog request failed offers no fonts, and a random pick then changes nothing. */
  method FailedLoadLeavesCatalogEmpty(random: real) returns (picker: FontPickerState, ok: bool)
    requires 0.0 <= random < 1.0
    ensures picker.fonts == [] && !ok && picker.selectedFont == "" && picker.head == []
  {
    picker := new FontPickerState([]);
    picker.LoadFonts(None);
    ok := picker.RandomFont(random);
  }
}
