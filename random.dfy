/** numpy's `Generator`, modelled as an injected stream of raw values read
    through a cursor. Each bounded draw `integers(lo, hi)` consumes exactly
    one stream element and maps it into [lo, hi); an empty range raises
    ValueError without consuming anything. */
module Random {
  import opened Common

  /** A raw stream, as produced by `np.random.default_rng(seed)`. */
  type Stream = nat -> nat

  /** Seeding: the stream a seed starts. */
  type Seeder = int -> Stream

  /** The value of the bounded draw at stream position pos. */
  function Draw(src: Stream, pos: nat, lo: int, hi: int): (r: int)
    requires lo < hi
    ensures lo <= r < hi
  {
    lo + src(pos) % (hi - lo)
  }

  /** A draw of `integers(2)`, read as a boolean coin. */
  function Coin(src: Stream, pos: nat): (r: bool)
    ensures r <==> Draw(src, pos, 0, 2) == 1
  {
    src(pos) % 2 == 1
  }

  /** The values of `integers(hi, size=n)` drawn from position pos on. */
  function Draws(src: Stream, pos: nat, hi: int, n: nat): (r: seq<int>)
    requires 0 < hi
    ensures |r| == n
    ensures forall i :: 0 <= i < n ==> r[i] == Draw(src, pos + i, 0, hi)
  {
    seq(n, (i: int) requires 0 <= i < n => Draw(src, pos + i, 0, hi))
  }

  class Generator {
    const source: Stream
    var cursor: nat

    constructor (source: Stream)
      ensures this.source == source && cursor == 0
    {
      this.source := source;
      cursor := 0;
    }

    /** `integers(lo, hi)`. */
    method Integers(lo: int, hi: int) returns (r: Option<int>)
      modifies this
      ensures lo < hi ==> r == Some(Draw(source, old(cursor), lo, hi)) && cursor == old(cursor) + 1
      ensures hi <= lo ==> r == None && cursor == old(cursor)
    {
      if hi <= lo {
        r := None;
      } else {
        r := Some(Draw(source, cursor, lo, hi));
        cursor := cursor + 1;
      }
    }

    /** `integers(2)` read as a boolean, as in `if self.rng.integers(2):`. */
    method CoinFlip() returns (b: bool)
      modifies this
      ensures b == Coin(source, old(cursor)) && cursor == old(cursor) + 1
    {
      var r := Integers(0, 2);
      b := r.value == 1;
    }

    /** `integers([a, b])`: one draw below each bound, both bounds checked
        before anything is drawn. */
    method IntegersPair(a: int, b: int) returns (r: Option<(int, int)>)
      modifies this
      ensures a <= 0 || b <= 0 ==> r == None && cursor == old(cursor)
      ensures 0 < a && 0 < b ==>
        r == Some((Draw(source, old(cursor), 0, a), Draw(source, old(cursor) + 1, 0, b))) && cursor == old(cursor) + 2
    {
      if a <= 0 || b <= 0 {
        return None;
      }
      var x := Integers(0, a);
      var y := Integers(0, b);
      r := Some((x.value, y.value));
    }

    /** `integers(hi, size=n)`: n draws from [0, hi), filled in order. An
        empty size returns an empty array before the range is checked. */
    method IntegersN(hi: int, n: nat) returns (r: Option<seq<int>>)
      modifies this
      ensures n == 0 ==> r == Some([]) && cursor == old(cursor)
      ensures hi <= 0 && n > 0 ==> r == None && cursor == old(cursor)
      ensures 0 < hi ==> r == Some(Draws(source, old(cursor), hi, n)) && cursor == old(cursor) + n
    {
      if n == 0 {
        return Some([]);
      }
      if hi <= 0 {
        return None;
      }
      var vals: seq<int> := [];
      for i := 0 to n
        invariant cursor == old(cursor) + i
        invariant vals == Draws(source, old(cursor), hi, i)
      {
        var x := Integers(0, hi);
        vals := vals + [x.value];
      }
      r := Some(vals);
    }
  }
}
