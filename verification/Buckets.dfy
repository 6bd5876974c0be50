/** Time buckets: seconds rounded down to a multiple of the bucket width. */
module Buckets {
  /** Seconds from the epoch, on either side of it. */
  type Time = int

  /** Division as the machine does it, towards zero. */
  function Quotient(a: int, b: int): int
    requires b > 0
  {
    if a >= 0 then a / b else -((-a) / b)
  }

  function Remainder(a: int, b: int): int
    requires b > 0
  {
    a - Quotient(a, b) * b
  }

  function Bucket(seconds: Time, width: int): Time
    requires width > 0
  {
    var quotient := Quotient(seconds, width);
    (if seconds < 0 && Remainder(seconds, width) != 0 then quotient - 1 else quotient) * width
  }

  /** The bucket contains the time, also before the epoch. */
  lemma {:induction false} BucketContains(t: int, w: int)
    requires w > 0
    ensures Bucket(t, w) <= t < Bucket(t, w) + w && Bucket(t, w) == (t / w) * w
  {
    if t < 0 {
      NegativeQuotient(t, w);
    }
  }

  lemma {:induction false} NegativeQuotient(t: int, w: int)
    requires w > 0 && t < 0
    ensures t / w == if Remainder(t, w) != 0 then Quotient(t, w) - 1 else Quotient(t, w)
  {
    var q := (-t) / w;
    assert -t == q * w + (-t) % w;
    if (-t) % w == 0 {
      Unique(t, w, -q);
    } else {
      Unique(t, w, -q - 1);
    }
  }

  lemma {:induction false} Unique(t: int, w: int, q: int)
    requires w > 0 && q * w <= t < (q + 1) * w
    ensures t / w == q
  {
    var d := t / w - q;
    assert t == (t / w) * w + t % w;
    assert d * w < w && -w < d * w;
    Between(d, w);
  }

  lemma {:induction false} Scaled(x: int, w: int)
    requires w > 0 && x >= 0
    ensures x * w >= 0
  {
  }

  lemma {:induction false} Larger(p: int, q: int, w: int)
    requires w > 0 && p > q
    ensures p * w >= q * w + w
  {
    Scaled(p - q - 1, w);
    assert p * w == q * w + w + (p - q - 1) * w;
  }

  lemma {:induction false} Between(d: int, w: int)
    requires w > 0 && -w < d * w < w
    ensures d == 0
  {
    if d > 0 {
      Larger(d, 0, w);
    } else if d < 0 {
      Larger(0, d, w);
    }
  }

  lemma {:induction false} Twice(h: int, w: int)
    ensures h * (2 * w) == 2 * (h * w) && (2 * h) * w == 2 * (h * w) && (2 * h + 1) * w == 2 * (h * w) + w
    ensures (h + 1) * (2 * w) == 2 * (h * w) + 2 * w
  {
  }

  lemma {:induction false} HalfQuotient(t: int, w: int, h: int)
    requires w > 0 && 2 * (h * w) <= t < 2 * (h * w) + 2 * w
    ensures t / (2 * w) == h
  {
    Twice(h, w);
    Unique(t, 2 * w, h);
  }

  /** Buckets of twice the width are unions of buckets. */
  lemma {:induction false} BucketNests(t: int, w: int)
    requires w > 0
    ensures Bucket(Bucket(t, w), 2 * w) == Bucket(t, 2 * w)
  {
    hide Bucket;
    BucketContains(t, w);
    BucketContains(t, 2 * w);
    var q, b := t / w, Bucket(t, w);
    BucketContains(b, 2 * w);
    var h := q / 2;
    Twice(h, w);
    assert q == 2 * h || q == 2 * h + 1;
    assert b == 2 * (h * w) || b == 2 * (h * w) + w;
    HalfQuotient(t, w, h);
    HalfQuotient(b, w, h);
  }

  /** Wide buckets: one on either side of zero. */
  lemma {:induction false} TwoBuckets(t: int, w: int)
    requires -w <= t < w && w > 0
    ensures Bucket(t, w) in {-w, 0}
  {
    BucketContains(t, w);
    if t >= 0 {
      Unique(t, w, 0);
    } else {
      Unique(t, w, -1);
    }
  }
}
