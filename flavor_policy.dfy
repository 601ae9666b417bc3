/**
 * Choosing the flavor (media rendition) to send for transcription: the scan
 * over the entry's READY flavors keeps a running minimum of the size over the
 * flavors whose extension is mp4, mp3 or 3gp and whose size is positive. The
 * comparison is strict, so among flavors of equal smallest size the first in
 * list order is kept.
 */
module FlavorPolicy {
  import opened Wrappers

  datatype Flavor = Flavor(id: string, fileExt: string, size: int)

  const UploadExtensions: seq<string> := ["mp4", "mp3", "3gp"]

  /** A flavor the scan does not skip. */
  predicate Eligible(f: Flavor) {
    f.fileExt in UploadExtensions && f.size > 0
  }

  /** The index the scan holds after reading all of fs, read from its end. */
  function Scan(fs: seq<Flavor>): (r: Option<nat>)
    ensures r.Some? ==> r.value < |fs|
  {
    if fs == [] then None
    else
      var kept := Scan(fs[..|fs| - 1]);
      var last := fs[|fs| - 1];
      if Eligible(last) && (kept.None? || last.size < fs[kept.value].size) then Some(|fs| - 1)
      else kept
  }

  /** The flavor id the scan ends with (the source's `flavorId`). */
  function ChosenId(fs: seq<Flavor>): Option<string> {
    match Scan(fs)
    case None => None
    case Some(i) => Some(fs[i].id)
  }

  /** i is an eligible flavor of smallest size, and no earlier flavor has that size. */
  ghost predicate SmallestEarliest(fs: seq<Flavor>, i: int) {
    && 0 <= i < |fs|
    && Eligible(fs[i])
    && (forall j :: 0 <= j < |fs| && Eligible(fs[j]) ==> fs[i].size <= fs[j].size)
    && (forall j :: 0 <= j < i && Eligible(fs[j]) ==> fs[i].size < fs[j].size)
  }

  ghost predicate NoneEligible(fs: seq<Flavor>) {
    forall j :: 0 <= j < |fs| ==> !Eligible(fs[j])
  }

  /** The scan finds nothing exactly when no flavor is eligible, and otherwise the smallest, earliest one. */
  lemma {:induction false} ScanIsSmallestEarliest(fs: seq<Flavor>)
    ensures Scan(fs).None? <==> NoneEligible(fs)
    ensures Scan(fs).Some? ==> SmallestEarliest(fs, Scan(fs).value)
  {
    if fs != [] {
      var init := fs[..|fs| - 1];
      ScanIsSmallestEarliest(init);
      assert forall j :: 0 <= j < |init| ==> init[j] == fs[j];
    }
  }

  /** At most one index is the smallest earliest eligible flavor. */
  lemma SmallestEarliestUnique(fs: seq<Flavor>, i: int, k: int)
    requires SmallestEarliest(fs, i) && SmallestEarliest(fs, k)
    ensures i == k
  {
  }

  /** The scan's answer and the declarative description agree for every index. */
  lemma ScanCharacterized(fs: seq<Flavor>, i: int)
    ensures Scan(fs) == Some(i) <==> SmallestEarliest(fs, i)
  {
    ScanIsSmallestEarliest(fs);
    if SmallestEarliest(fs, i) {
      assert !NoneEligible(fs);
      SmallestEarliestUnique(fs, i, Scan(fs).value);
    }
  }

  /**
   * The loop of `handlePending`: `size` starts at infinity (None here) and
   * `flavorId` at None; a flavor with another extension or a size of at most
   * zero is skipped, and a strictly smaller one replaces the kept one.
   */
  method SelectFlavor(flavors: seq<Flavor>) returns (flavorId: Option<string>)
    ensures flavorId == ChosenId(flavors)
    ensures flavorId.None? <==> NoneEligible(flavors)
    ensures flavorId.Some? ==> exists i :: SmallestEarliest(flavors, i) && flavors[i].id == flavorId.value
  {
    var size: Option<int> := None;
    flavorId := None;
    ghost var kept: Option<nat> := None;
    var k := 0;
    while k < |flavors|
      invariant k <= |flavors|
      invariant kept == Scan(flavors[..k])
      invariant kept.None? ==> size.None? && flavorId.None?
      invariant kept.Some? ==> kept.value < k && size == Some(flavors[kept.value].size) &&
                               flavorId == Some(flavors[kept.value].id)
    {
      var flavor := flavors[k];
      assert flavors[..k + 1][..k] == flavors[..k];
      if flavor.fileExt in UploadExtensions && flavor.size > 0 {
        if size.None? || flavor.size < size.value {
          size := Some(flavor.size);
          flavorId := Some(flavor.id);
          kept := Some(k);
        }
      }
      k := k + 1;
    }
    assert flavors[..k] == flavors;
    ScanIsSmallestEarliest(flavors);
  }
}
