/** The catalogue filter (specification/WineSpecification.java). Each criterion is a
    predicate over wines; `filter` is their conjunction. `FindAll` is the wine table's
    `findAll(specification)`: the rows of the table that the predicate accepts. The query
    has no ORDER BY, so the database may return them in any order; the model fixes that
    order to the order of the table's sequence. */
module WineSpecification {
  import opened Common
  import opened Wines

  type Spec = Wine -> bool

  /** `String.trim` strips every character whose code is at most U+0020 from both ends. */
  predicate Trimmable(c: char) { c <= ' ' }

  /** The first scan of `String.trim`: from `i`, skip trimmable characters; the result is the
      first index at or after `i` that holds a non-trimmable character, or `|s|`. */
  function TrimStartIndex(s: string, i: nat): (k: nat)
    requires i <= |s|
    ensures i <= k <= |s|
    ensures forall j :: i <= j < k ==> Trimmable(s[j])
    ensures k < |s| ==> !Trimmable(s[k])
    decreases |s| - i
  {
    if i < |s| && Trimmable(s[i]) then TrimStartIndex(s, i + 1) else i
  }

  /** The second scan of `String.trim`: from `len`, step back over trimmable characters but
      never below `st`; the result is the end of the kept part. */
  function TrimEndIndex(s: string, st: nat, len: nat): (k: nat)
    requires st <= len <= |s|
    ensures st <= k <= len
    ensures forall j :: k <= j < len ==> Trimmable(s[j])
    ensures k > st ==> !Trimmable(s[k - 1])
  {
    if len > st && Trimmable(s[len - 1]) then TrimEndIndex(s, st, len - 1) else len
  }

  /** `String.trim`: the result is the slice of the argument that starts after the leading
      trimmable characters; everything outside the slice is trimmable, and (unless it is
      empty) the slice neither starts nor ends with a trimmable character. */
  function Trim(s: string): (t: string)
    ensures var a := TrimStartIndex(s, 0);
            && a + |t| <= |s| && t == s[a..a + |t|]
            && (forall i :: 0 <= i < a ==> Trimmable(s[i]))
            && (forall i :: a + |t| <= i < |s| ==> Trimmable(s[i]))
    ensures t == [] <==> forall i :: 0 <= i < |s| ==> Trimmable(s[i])
    ensures t != [] ==> !Trimmable(t[0]) && !Trimmable(t[|t| - 1])
  {
    var st := TrimStartIndex(s, 0);
    var len := TrimEndIndex(s, st, |s|);
    s[st..len]
  }

  /** The guard shared by the three name criteria: absent, blank after trimming, or a
      single space. */
  predicate IsBlank(criterion: Option<string>) {
    criterion.None? || Trim(criterion.value) == [] || criterion.value == " "
  }

  /** The single-space test is subsumed by the trim test: blankness is exactly "absent or
      made only of characters that trim removes". */
  lemma BlankMeansAllTrimmable(criterion: Option<string>)
    ensures IsBlank(criterion) <==>
            criterion.None? || forall i :: 0 <= i < |criterion.value| ==> Trimmable(criterion.value[i])
  {
    if criterion.Some? && criterion.value == " " {
      assert Trimmable(criterion.value[0]);
    }
  }

  /** A name criterion: blank accepts every wine, otherwise the wine's attribute name must
      equal the argument. A wine without that attribute never matches a non-blank one. */
  function NameEquals(criterion: Option<string>, attribute: Option<string>): (ok: bool)
    ensures IsBlank(criterion) ==> ok
    ensures !IsBlank(criterion) ==> (ok <==> attribute.Some? && attribute.value == criterion.value)
  {
    IsBlank(criterion) || attribute == criterion
  }

  function HasColor(color: Option<string>): (spec: Spec)
    ensures IsBlank(color) ==> forall w: Wine :: spec(w)
    ensures !IsBlank(color) ==> forall w: Wine :: spec(w) <==> w.colorName == color
  {
    (w: Wine) => NameEquals(color, w.colorName)
  }

  function HasFlavour(flavour: Option<string>): (spec: Spec)
    ensures IsBlank(flavour) ==> forall w: Wine :: spec(w)
    ensures !IsBlank(flavour) ==> forall w: Wine :: spec(w) <==> w.flavourName == flavour
  {
    (w: Wine) => NameEquals(flavour, w.flavourName)
  }

  function HasType(typeName: Option<string>): (spec: Spec)
    ensures IsBlank(typeName) ==> forall w: Wine :: spec(w)
    ensures !IsBlank(typeName) ==> forall w: Wine :: w.typeName.None? ==> !spec(w)
    ensures !IsBlank(typeName) ==> forall w: Wine :: spec(w) <==> w.typeName == typeName
  {
    (w: Wine) => NameEquals(typeName, w.typeName)
  }

  /** The price criterion, both bounds inclusive; an absent bound does not constrain. */
  function HasPriceBetween(minPrice: Option<int>, maxPrice: Option<int>): (spec: Spec)
    ensures minPrice.None? && maxPrice.None? ==> forall w: Wine :: spec(w)
    ensures minPrice.None? && maxPrice.Some? ==> forall w: Wine :: spec(w) <==> w.price <= maxPrice.value
    ensures minPrice.Some? && maxPrice.None? ==> forall w: Wine :: spec(w) <==> minPrice.value <= w.price
    ensures minPrice.Some? && maxPrice.Some? ==>
              forall w: Wine :: spec(w) <==> minPrice.value <= w.price <= maxPrice.value
  {
    if minPrice.None? && maxPrice.None? then (w: Wine) => true
    else if minPrice.None? then (w: Wine) => w.price <= maxPrice.value
    else if maxPrice.None? then (w: Wine) => w.price >= minPrice.value
    else (w: Wine) => minPrice.value <= w.price && w.price <= maxPrice.value
  }

  /** `Specification.and`. */
  function And(a: Spec, b: Spec): (spec: Spec)
    ensures forall w: Wine :: spec(w) <==> a(w) && b(w)
  {
    (w: Wine) => a(w) && b(w)
  }

  /** `where(hasColor).and(hasFlavour).and(hasType).and(hasPriceBetween)`. */
  function Filter(color: Option<string>, flavour: Option<string>, typeName: Option<string>,
                  minPrice: Option<int>, maxPrice: Option<int>): (spec: Spec)
    ensures forall w: Wine :: spec(w) <==>
              HasColor(color)(w) && HasFlavour(flavour)(w) && HasType(typeName)(w)
              && HasPriceBetween(minPrice, maxPrice)(w)
  {
    And(And(And(HasColor(color), HasFlavour(flavour)), HasType(typeName)),
        HasPriceBetween(minPrice, maxPrice))
  }

  /** Every argument absent: the conjunction accepts every wine. */
  lemma FilterWithoutCriteriaAcceptsAll(w: Wine)
    ensures Filter(None, None, None, None, None)(w)
  {
  }

  /** A wine priced exactly at a shared boundary passes the ranges on both sides of it. */
  lemma SharedBoundaryPassesBothRanges(w: Wine, bound: int, lower: int, upper: int)
    requires w.price == bound && lower <= bound <= upper
    ensures HasPriceBetween(None, Some(bound))(w)
    ensures HasPriceBetween(Some(bound), Some(upper))(w)
    ensures HasPriceBetween(Some(lower), Some(bound))(w)
  {
  }

  /** `findAll(spec)`: the accepted rows, listed in the order of the table's sequence (the
      order the model chooses for a query without ORDER BY). */
  function FindAll(wines: seq<Wine>, spec: Spec): (r: seq<Wine>)
    ensures |r| <= |wines|
    ensures forall w: Wine :: w in r <==> w in wines && spec(w)
  {
    if wines == [] then []
    else if spec(wines[0]) then [wines[0]] + FindAll(wines[1..], spec)
    else FindAll(wines[1..], spec)
  }

  /** A predicate that accepts everything returns the whole table. */
  lemma {:induction false} FindAllAcceptingEverything(wines: seq<Wine>, spec: Spec)
    requires forall w: Wine :: spec(w)
    ensures FindAll(wines, spec) == wines
  {
    if wines != [] {
      FindAllAcceptingEverything(wines[1..], spec);
      assert wines == [wines[0]] + wines[1..];
    }
  }

  /** Querying with a conjunction is querying with the first conjunct and then filtering
      that result with the second. */
  lemma {:induction false} FindAllAnd(wines: seq<Wine>, a: Spec, b: Spec)
    ensures FindAll(wines, And(a, b)) == FindAll(FindAll(wines, a), b)
  {
    if wines != [] {
      FindAllAnd(wines[1..], a, b);
      if a(wines[0]) {
        assert FindAll(wines, a) == [wines[0]] + FindAll(wines[1..], a);
        assert FindAll(wines, a)[1..] == FindAll(wines[1..], a);
      }
    }
  }

  /** `t` keeps a subset of the rows of `s`, in the same order. */
  predicate IsSubsequence(t: seq<Wine>, s: seq<Wine>)
    decreases |s|
  {
    t == [] || (s != [] && (if t[0] == s[0] then IsSubsequence(t[1..], s[1..]) else IsSubsequence(t, s[1..])))
  }

  lemma {:induction false} FindAllIsSubsequence(wines: seq<Wine>, spec: Spec)
    ensures IsSubsequence(FindAll(wines, spec), wines)
  {
    if wines != [] {
      FindAllIsSubsequence(wines[1..], spec);
      var r := FindAll(wines, spec);
      if spec(wines[0]) {
        assert r[0] == wines[0] && r[1..] == FindAll(wines[1..], spec);
      }
    }
  }

  /** Dropping the head of a subsequence keeps it a subsequence. */
  lemma {:induction false} SubsequenceTail(t: seq<Wine>, s: seq<Wine>)
    requires t != [] && IsSubsequence(t, s)
    ensures IsSubsequence(t[1..], s)
    decreases |s|, 0
  {
    if t[0] != s[0] {
      SubsequenceTail(t, s[1..]);
    }
    if t[1..] != [] {
      SubsequenceWeaken(t[1..], s[1..], s[0]);
    }
  }

  /** A subsequence of the tail is a subsequence of the whole. */
  lemma {:induction false} SubsequenceWeaken(t: seq<Wine>, s: seq<Wine>, x: Wine)
    requires IsSubsequence(t, s)
    ensures IsSubsequence(t, [x] + s)
    decreases |s|, 1
  {
    if t != [] && t[0] == x {
      assert s != [];
      if t[0] == s[0] {
        SubsequenceWeaken(t[1..], s[1..], s[0]);
        assert [s[0]] + s[1..] == s;
      } else {
        SubsequenceTail(t, s);
      }
      assert ([x] + s)[1..] == s;
    } else {
      assert ([x] + s)[1..] == s;
    }
  }

  /** Adding a criterion never enlarges the result: the combined filter's matches are a
      subsequence of each single criterion's matches. */
  lemma FilterNarrowsEachCriterion(wines: seq<Wine>, color: Option<string>, flavour: Option<string>,
                                   typeName: Option<string>, minPrice: Option<int>, maxPrice: Option<int>)
    ensures var r := FindAll(wines, Filter(color, flavour, typeName, minPrice, maxPrice));
            && IsSubsequence(r, FindAll(wines, HasColor(color)))
            && IsSubsequence(r, FindAll(wines, HasFlavour(flavour)))
            && IsSubsequence(r, FindAll(wines, HasType(typeName)))
            && IsSubsequence(r, FindAll(wines, HasPriceBetween(minPrice, maxPrice)))
  {
    var f := Filter(color, flavour, typeName, minPrice, maxPrice);
    NarrowerSelectsSubsequence(wines, HasColor(color), f);
    NarrowerSelectsSubsequence(wines, HasFlavour(flavour), f);
    NarrowerSelectsSubsequence(wines, HasType(typeName), f);
    NarrowerSelectsSubsequence(wines, HasPriceBetween(minPrice, maxPrice), f);
  }

  /** A predicate that implies another selects a subsequence of what the other selects. */
  lemma NarrowerSelectsSubsequence(wines: seq<Wine>, c: Spec, f: Spec)
    requires forall w: Wine :: f(w) ==> c(w)
    ensures IsSubsequence(FindAll(wines, f), FindAll(wines, c))
  {
    assert forall w: Wine :: f(w) <==> And(c, f)(w);
    FindAllExtensional(wines, f, And(c, f));
    FindAllAnd(wines, c, f);
    FindAllIsSubsequence(FindAll(wines, c), f);
  }

  /** Two predicates that agree on every wine select the same rows. */
  lemma {:induction false} FindAllExtensional(wines: seq<Wine>, a: Spec, b: Spec)
    requires forall w: Wine :: a(w) <==> b(w)
    ensures FindAll(wines, a) == FindAll(wines, b)
  {
    if wines != [] {
      FindAllExtensional(wines[1..], a, b);
    }
  }
}
