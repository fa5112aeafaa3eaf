/** The list of link rows that the registration page and the profile
    creation page edit, and the mapping applied to it on submission. Both
    pages hold the same `addLink`, `removeLink` and `handleLinkChange`
    handlers; the classes in `Register` and `CreateProfile` call the
    functions below on their `links` field. */
module LinkList {
  import opened Wrappers
  import opened LinkFormat

  /** One link row: `{platform, url, isCustom, customTitle}`. While the row is
      edited `url` holds the raw value the user typed. */
  datatype LinkEntry = LinkEntry(platform: string, url: string, isCustom: bool, customTitle: string)

  /** The row `addLink` appends. */
  const Blank: LinkEntry := LinkEntry("", "", false, "")

  /** The field names `handleLinkChange` is called with. */
  datatype Field = PlatformField | UrlField | CustomTitleField

  /** `links.filter((_, i) => i !== index)`, walking the list with `base`
      as the position of its first element. */
  function FilterOutIndex(links: seq<LinkEntry>, index: int, base: int): (r: seq<LinkEntry>)
    ensures base <= index < base + |links| ==> r == links[..index - base] + links[index - base + 1..]
    ensures !(base <= index < base + |links|) ==> r == links
    decreases |links|
  {
    if links == [] then []
    else if base == index then
      FilterOutIndex(links[1..], index, base + 1)
    else
      var rest := FilterOutIndex(links[1..], index, base + 1);
      if base < index < base + |links| then
        ConsAroundGap(links, index - base);
        [links[0]] + rest
      else
        assert links == [links[0]] + links[1..];
        [links[0]] + rest
  }

  /** Putting the first element back in front of a list with a gap. */
  lemma ConsAroundGap<T>(s: seq<T>, m: int)
    requires 1 <= m < |s|
    ensures [s[0]] + (s[1..][..m - 1] + s[1..][m..]) == s[..m] + s[m + 1..]
  {
    assert s[1..][..m - 1] == s[1..m];
    assert s[1..][m..] == s[m + 1..];
    assert [s[0]] + s[1..m] == s[..m];
  }

  /** `removeLink(index)`: removes the row at `index` and keeps the others in
      order; an index that is not a row leaves the list as it is. */
  function Without(links: seq<LinkEntry>, index: int): (r: seq<LinkEntry>)
    ensures 0 <= index < |links| ==> |r| == |links| - 1
    ensures 0 <= index < |links| ==> forall k :: 0 <= k < index ==> r[k] == links[k]
    ensures 0 <= index < |links| ==> forall k :: index <= k < |r| ==> r[k] == links[k + 1]
    ensures !(0 <= index < |links|) ==> r == links
  {
    FilterOutIndex(links, index, 0)
  }

  /** The new row `handleLinkChange(index, field, value)` writes: `field` set
      to `value`, and `isCustom` true when the platform is being set to
      `custom`, otherwise whether the row's PREVIOUS platform was `custom`. */
  function Edited(entry: LinkEntry, field: Field, value: string): (e: LinkEntry)
    ensures e.platform == if field == PlatformField then value else entry.platform
    ensures e.url == if field == UrlField then value else entry.url
    ensures e.customTitle == if field == CustomTitleField then value else entry.customTitle
    ensures e.isCustom <==> (field == PlatformField && value == "custom") || entry.platform == "custom"
  {
    if field == PlatformField && value == "custom" then
      entry.(platform := value, isCustom := true)
    else
      var updated :=
        match field
        case PlatformField => entry.(platform := value)
        case UrlField => entry.(url := value)
        case CustomTitleField => entry.(customTitle := value);
      updated.(isCustom := entry.platform == "custom")
  }

  /** `handleLinkChange(index, field, value)` on the whole list: row `index`
      becomes its edited form and every other row stays. */
  function ChangedAt(links: seq<LinkEntry>, index: int, field: Field, value: string): (r: seq<LinkEntry>)
    requires 0 <= index < |links|
    ensures |r| == |links|
    ensures r[index] == Edited(links[index], field, value)
    ensures forall k :: 0 <= k < |links| && k != index ==> r[k] == links[k]
  {
    links[index := Edited(links[index], field, value)]
  }

  /** Switching a `custom` row to any other platform leaves it flagged as
      custom, because the flag is computed from the old platform. */
  lemma LeavingCustomKeepsFlag(entry: LinkEntry, value: string)
    requires entry.platform == "custom" && value != "custom"
    ensures Edited(entry, PlatformField, value).platform == value
    ensures Edited(entry, PlatformField, value).isCustom
  {
  }

  /** The stale flag is cleared by the next edit of any field, since by then
      the stored platform is no longer `custom`. */
  lemma StaleFlagClearedByNextEdit(entry: LinkEntry, value: string, field: Field, next: string)
    requires entry.platform == "custom" && value != "custom"
    requires !(field == PlatformField && next == "custom")
    ensures !Edited(Edited(entry, PlatformField, value), field, next).isCustom
  {
  }

  /** Editing the url or the title never changes the custom flag of a row
      that is consistent with its platform. */
  lemma EditKeepsConsistentFlag(entry: LinkEntry, field: Field, value: string)
    requires entry.isCustom <==> entry.platform == "custom"
    requires field != PlatformField
    ensures Edited(entry, field, value).isCustom == entry.isCustom
  {
  }

  /** Choosing `custom` from any state flags the row as custom. */
  lemma ChoosingCustomSetsFlag(entry: LinkEntry)
    ensures Edited(entry, PlatformField, "custom").isCustom
    ensures Edited(entry, PlatformField, "custom").platform == "custom"
  {
  }

  /** Every row whose platform is `custom` is flagged as custom. The converse
      does not hold (see `LeavingCustomKeepsFlag`). */
  predicate CustomRowsFlagged(links: seq<LinkEntry>) {
    forall k :: 0 <= k < |links| && links[k].platform == "custom" ==> links[k].isCustom
  }

  /** Appending a blank row keeps every `custom` row flagged. */
  lemma AppendBlankKeepsFlags(links: seq<LinkEntry>)
    requires CustomRowsFlagged(links)
    ensures CustomRowsFlagged(links + [Blank])
  {
  }

  /** Removing a row keeps every `custom` row flagged. */
  lemma WithoutKeepsFlags(links: seq<LinkEntry>, index: int)
    requires CustomRowsFlagged(links)
    ensures CustomRowsFlagged(Without(links, index))
  {
  }

  /** Any edit keeps every `custom` row flagged. */
  lemma ChangedAtKeepsFlags(links: seq<LinkEntry>, index: int, field: Field, value: string)
    requires 0 <= index < |links| && CustomRowsFlagged(links)
    ensures CustomRowsFlagged(ChangedAt(links, index, field, value))
  {
  }

  /** The row as it is sent: `{...link, url: formatLinkValue(link.platform, link.url)}`. */
  function Formatted(link: LinkEntry): (f: LinkEntry)
    ensures f.platform == link.platform && f.isCustom == link.isCustom && f.customTitle == link.customTitle
  {
    link.(url := FormatLinkValue(Some(link.platform), link.url))
  }

  /** `links.map(...)` in `handleSubmit`: same length and order, every row
      keeps its platform, flag and title, and only its url is replaced by the
      formatted link. */
  function FormatLinks(links: seq<LinkEntry>): (r: seq<LinkEntry>)
    ensures |r| == |links|
    ensures forall k :: 0 <= k < |links| ==>
      r[k].platform == links[k].platform && r[k].isCustom == links[k].isCustom &&
      r[k].customTitle == links[k].customTitle &&
      r[k].url == FormatLinkValue(Some(links[k].platform), links[k].url)
  {
    if links == [] then [] else [Formatted(links[0])] + FormatLinks(links[1..])
  }

  /** Submitting distributes over the list: the rows are formatted one by
      one, independently of each other. */
  lemma {:induction false} FormatLinksAppend(a: seq<LinkEntry>, b: seq<LinkEntry>)
    ensures FormatLinks(a + b) == FormatLinks(a) + FormatLinks(b)
  {
    if a == [] {
      assert a + b == b;
    } else {
      assert (a + b)[0] == a[0];
      assert (a + b)[1..] == a[1..] + b;
      FormatLinksAppend(a[1..], b);
    }
  }

  /** A blank row is sent with an empty url, whatever else the list holds. */
  lemma FormatBlankRow(links: seq<LinkEntry>)
    ensures FormatLinks(links + [Blank]) == FormatLinks(links) + [Blank]
  {
    FormatLinksAppend(links, [Blank]);
  }
}
