/** The fixed 40-tile board and the 14 landmark properties (boardGenerator.ts). */
module BoardGenerator {
  import opened Types

  datatype Landmark = Landmark(name: string, country: string, value: int, rent: int)

  const BoardSize: nat := 40

  const Landmarks: seq<Landmark> := [
    Landmark("Cristo Redentor", "Brazil", 280, 45),
    Landmark("Torre Eiffel", "France", 320, 52),
    Landmark("Taj Mahal", "India", 260, 42),
    Landmark("Grande Muralha da China", "China", 300, 48),
    Landmark("Coliseu", "Italy", 310, 50),
    Landmark("Machu Picchu", "Peru", 250, 40),
    Landmark("Pir\U{00E2}mides de Giz\U{00E9}", "Egypt", 330, 54),
    Landmark("Est\U{00E1}tua da Liberdade", "USA", 270, 43),
    Landmark("Sagrada Fam\U{00ED}lia", "Spain", 290, 46),
    Landmark("Big Ben", "UK", 240, 39),
    Landmark("Moai de Rapa Nui", "Chile", 220, 36),
    Landmark("Burj Khalifa", "UAE", 360, 58),
    Landmark("Angkor Wat", "Cambodia", 245, 38),
    Landmark("Opera de Sydney", "Australia", 275, 44)
  ]

  const PropertyIndexes: seq<nat> := [1, 3, 6, 8, 11, 13, 16, 18, 21, 23, 26, 28, 31, 36]
  const LuckIndexes: seq<nat> := [2, 9, 19, 27, 34]
  const BadLuckIndexes: seq<nat> := [7, 14, 24, 32, 38]
  const SpecialIndexes: seq<nat> := [5, 15, 25, 35]

  // ---------------------------------------------------------------- decimal text

  function DigitChar(d: nat): char
    requires d < 10
  {
    "0123456789"[d]
  }

  function DigitValue(c: char): nat
  {
    if '0' <= c <= '9' then (c as int - '0' as int) as nat else 0
  }

  /** The decimal text of a number, as template literals print it. */
  function Decimal(n: nat): (r: string)
    ensures |r| > 0
  {
    if n < 10 then [DigitChar(n)] else Decimal(n / 10) + [DigitChar(n % 10)]
  }

  /** Reads decimal text back; the partner of Decimal. */
  function DecimalValue(s: string): nat
  {
    if |s| == 0 then 0 else DecimalValue(s[..|s| - 1]) * 10 + DigitValue(s[|s| - 1])
  }

  lemma {:induction false} DecimalRoundTrip(n: nat)
    ensures DecimalValue(Decimal(n)) == n
  {
    if n >= 10 {
      var s := Decimal(n / 10) + [DigitChar(n % 10)];
      assert s[..|s| - 1] == Decimal(n / 10);
      DecimalRoundTrip(n / 10);
    }
  }

  lemma DecimalInjective(a: nat, b: nat)
    requires Decimal(a) == Decimal(b)
    ensures a == b
  {
    DecimalRoundTrip(a);
    DecimalRoundTrip(b);
  }

  /** The id of the k-th property (counted from 0): "property-" and k + 1 in decimal. */
  function PropertyIdOf(k: nat): PropertyId
  {
    "property-" + Decimal(k + 1)
  }

  /** The id of tile i: "tile-" and i in decimal. */
  function TileIdOf(i: nat): string
  {
    "tile-" + Decimal(i)
  }

  lemma PrefixCancel(p: string, a: string, b: string)
    requires p + a == p + b
    ensures a == b
  {
    assert a == (p + a)[|p|..];
    assert b == (p + b)[|p|..];
  }

  lemma PropertyIdInjective(a: nat, b: nat)
    requires PropertyIdOf(a) == PropertyIdOf(b)
    ensures a == b
  {
    PrefixCancel("property-", Decimal(a + 1), Decimal(b + 1));
    DecimalInjective(a + 1, b + 1);
  }

  // ---------------------------------------------------------------- generation

  /** `indexOf`: the first position of x in xs, or -1. */
  function IndexOf(xs: seq<nat>, x: nat): (r: int)
    ensures -1 <= r < |xs|
    ensures r >= 0 ==> xs[r] == x && x in xs && x !in xs[..r]
    ensures r == -1 <==> x !in xs
  {
    if |xs| == 0 then -1
    else if xs[0] == x then 0
    else var j := IndexOf(xs[1..], x); if j == -1 then -1 else j + 1
  }

  function MakeProperty(k: nat): Property
    requires k < |Landmarks|
  {
    var l := Landmarks[k];
    Property(PropertyIdOf(k), l.name, l.country, l.value, l.rent, None, 0)
  }

  function GeneratedProperties(): seq<Property>
  {
    seq(|Landmarks|, k requires 0 <= k < |Landmarks| => MakeProperty(k))
  }

  function MakeTile(index: nat, properties: seq<Property>): Tile
  {
    if index in PropertyIndexes then
      var k := IndexOf(PropertyIndexes, index);
      var propertyId := if k < |properties| then Some(properties[k].id) else None;
      var found := if propertyId.Some? then FindProperty(properties, propertyId.value) else None;
      var caption := if found.Some? then properties[found.value].name + " (" + properties[found.value].country + ")"
                     else "Property";
      Tile(TileIdOf(index), index, PropertyTile, propertyId, caption)
    else if index in LuckIndexes then Tile(TileIdOf(index), index, Luck, None, "Luck")
    else if index in BadLuckIndexes then Tile(TileIdOf(index), index, BadLuck, None, "Bad Luck")
    else if index in SpecialIndexes then Tile(TileIdOf(index), index, SpecialEvent, None, "Special Event")
    else Tile(TileIdOf(index), index, Neutral, None, if index == 0 then "Start" else "Neutral")
  }

  datatype Generated = Generated(board: seq<Tile>, properties: seq<Property>)

  function GenerateBoard(): Generated
  {
    var properties := GeneratedProperties();
    Generated(seq(BoardSize, i requires 0 <= i < BoardSize => MakeTile(i, properties)), properties)
  }

  // ---------------------------------------------------------------- properties of the board

  predicate Increasing(xs: seq<nat>)
  {
    forall a, b :: 0 <= a < b < |xs| ==> xs[a] < xs[b]
  }

  lemma {:induction false} IndexOfIncreasing(xs: seq<nat>, k: nat)
    requires Increasing(xs) && k < |xs|
    ensures IndexOf(xs, xs[k]) == k
  {
    if k > 0 {
      assert xs[1..][k - 1] == xs[k];
      IndexOfIncreasing(xs[1..], k - 1);
    }
  }

  lemma PropertyIndexesIncreasing()
    ensures Increasing(PropertyIndexes)
  {
    var p := PropertyIndexes;
    assert forall a :: 0 <= a < |p| - 1 ==> p[a] < p[a + 1];
    forall a, b | 0 <= a < b < |p| ensures p[a] < p[b] {
      var c := a;
      while c < b
        invariant a <= c <= b && p[a] <= p[c]
        invariant c > a ==> p[a] < p[c]
      {
        c := c + 1;
      }
    }
  }

  /** Exactly 14 properties; property k carries landmark k's data, id
      `property-(k+1)`, no owner and level 0. */
  lemma GeneratedPropertiesShape()
    ensures |GenerateBoard().properties| == |Landmarks| == 14
    ensures forall k :: 0 <= k < 14 ==>
      var p := GenerateBoard().properties[k];
      p.id == PropertyIdOf(k) && p.name == Landmarks[k].name && p.country == Landmarks[k].country &&
      p.value == Landmarks[k].value && p.rent == Landmarks[k].rent && p.ownerId == None && p.level == 0
  {
  }

  /** The generated property ids are pairwise distinct. */
  lemma GeneratedPropertyIdsDistinct()
    ensures forall a, b ::
      (0 <= a < |GenerateBoard().properties| && 0 <= b < |GenerateBoard().properties| &&
       GenerateBoard().properties[a].id == GenerateBoard().properties[b].id) ==> a == b
  {
    var props := GenerateBoard().properties;
    forall a, b | 0 <= a < |props| && 0 <= b < |props| && props[a].id == props[b].id ensures a == b {
      PropertyIdInjective(a, b);
    }
  }

  /** No generated property has a negative price. */
  lemma GeneratedValuesNonNegative()
    ensures forall k :: 0 <= k < |GenerateBoard().properties| ==> GenerateBoard().properties[k].value >= 0
  {
    var props := GenerateBoard().properties;
    forall k | 0 <= k < |props|
      ensures props[k].value >= 0
    {
      assert props[k] == MakeProperty(k);
    }
  }

  /** A board of 40 tiles in which tile i has index i, as the generated
      one is. */
  predicate Indexed(board: seq<Tile>)
  {
    |board| == BoardSize && forall i :: 0 <= i < |board| ==> board[i].index == i
  }

  /** 40 tiles; tile i has index i and id `tile-i`. */
  lemma BoardShape()
    ensures |GenerateBoard().board| == BoardSize == 40
    ensures forall i :: 0 <= i < 40 ==>
      GenerateBoard().board[i].index == i && GenerateBoard().board[i].id == TileIdOf(i)
  {
  }

  /** The four index sets are pairwise disjoint. */
  lemma IndexSetsDisjoint()
    ensures forall x :: x in PropertyIndexes ==> x !in LuckIndexes && x !in BadLuckIndexes && x !in SpecialIndexes
    ensures forall x :: x in LuckIndexes ==> x !in BadLuckIndexes && x !in SpecialIndexes
    ensures forall x :: x in BadLuckIndexes ==> x !in SpecialIndexes
  {
  }

  /** Each tile's type is decided by the index set it belongs to; every other
      index is neutral, labelled "Start" at 0 and "Neutral" elsewhere. */
  lemma TileKinds(i: nat)
    requires i < 40
    ensures var t := GenerateBoard().board[i];
      (t.kind == PropertyTile <==> i in PropertyIndexes) &&
      (t.kind == Luck <==> i in LuckIndexes) &&
      (t.kind == BadLuck <==> i in BadLuckIndexes) &&
      (t.kind == SpecialEvent <==> i in SpecialIndexes) &&
      (t.kind == Neutral <==> i !in PropertyIndexes + LuckIndexes + BadLuckIndexes + SpecialIndexes) &&
      (t.kind == Neutral ==> t.caption == if i == 0 then "Start" else "Neutral") &&
      (t.kind != PropertyTile ==> t.propertyId == None)
  {
    IndexSetsDisjoint();
  }

  /** The link a property tile carries. */
  lemma TileLink(i: nat)
    requires i < 40 && i in PropertyIndexes
    ensures GenerateBoard().board[i].kind == PropertyTile
    ensures GenerateBoard().board[i].propertyId == Some(PropertyIdOf(IndexOf(PropertyIndexes, i)))
  {
    var g := GenerateBoard();
    var k := IndexOf(PropertyIndexes, i);
    assert g.board[i] == MakeTile(i, g.properties);
    MakeTileLink(i, g.properties);
    assert g.properties[k] == MakeProperty(k);
  }

  /** A tile at a property index carries the id of the property of the
      same rank, when there is one. */
  lemma MakeTileLink(index: nat, properties: seq<Property>)
    requires index in PropertyIndexes && IndexOf(PropertyIndexes, index) < |properties|
    ensures MakeTile(index, properties).kind == PropertyTile
    ensures MakeTile(index, properties).propertyId == Some(properties[IndexOf(PropertyIndexes, index)].id)
  {
  }

  /** The k-th property tile (in ascending index order) is linked to the
      k-th property. */
  lemma PropertyTileOf(k: nat)
    requires k < 14
    ensures PropertyIndexes[k] < 40
    ensures GenerateBoard().board[PropertyIndexes[k]].kind == PropertyTile
    ensures GenerateBoard().board[PropertyIndexes[k]].propertyId == Some(PropertyIdOf(k))
  {
    PropertyIndexesIncreasing();
    IndexOfIncreasing(PropertyIndexes, k);
    TileLink(PropertyIndexes[k]);
  }

  /** No tile other than the k-th property tile is linked to property k. */
  lemma OnlyTileLinked(i: nat, k: nat)
    requires i < 40 && k < 14
    requires GenerateBoard().board[i].propertyId == Some(PropertyIdOf(k))
    ensures i == PropertyIndexes[k]
  {
    TileKinds(i);
    TileLink(i);
    var j := IndexOf(PropertyIndexes, i);
    PropertyIdInjective(j, k);
  }

  /** Every link of the board names a generated property. */
  lemma BoardLinksResolve(i: nat)
    requires i < 40
    ensures GenerateBoard().board[i].propertyId.Some? ==>
      FindProperty(GenerateBoard().properties, GenerateBoard().board[i].propertyId.value).Some?
  {
  }
}
