/**
  The biography page's timed gallery: an image index advanced modulo
  `steps` by an interval timer that only runs while there are images and
  the pointer is not resting on the gallery (when pausing on hover), and
  the two zero-padded progress labels.
 */
module BioGallery {
  import opened Wrappers
  import opened Modular

  datatype Image = Image(src: string, alt: string)

  /** The lower bound on the tick period, in milliseconds. */
  const MinPeriodMs := 1200

  /** The props' defaults when the page leaves them out. */
  const DefaultIntervalMs := 4500
  const DefaultPauseOnHover := true

  /** The number of positions the index cycles through: at least one, even with no images. */
  function Steps(count: nat): (steps: nat)
    ensures steps >= 1
    ensures steps >= count
    ensures count >= 1 ==> steps == count
    ensures count <= 1 ==> steps == 1
  {
    if count > 1 then count else 1
  }

  /** The time between two ticks: the configured interval, never below the floor. */
  function Period(intervalMs: int): (ms: int)
    ensures ms >= MinPeriodMs
    ensures intervalMs >= MinPeriodMs ==> ms == intervalMs
    ensures intervalMs < MinPeriodMs ==> ms == MinPeriodMs
  {
    if intervalMs > MinPeriodMs then intervalMs else MinPeriodMs
  }

  /** One tick of the timer: `(prev + 1) % steps`. */
  function Advance(prev: nat, steps: nat): (r: nat)
    requires steps >= 1
    ensures r < steps
    ensures prev + 1 < steps ==> r == prev + 1
    ensures prev == steps - 1 ==> r == 0
  {
    AdvanceWraps(prev, steps);
    (prev + 1) % steps
  }

  lemma AdvanceWraps(prev: nat, steps: nat)
    requires steps >= 1
    ensures prev + 1 < steps ==> (prev + 1) % steps == prev + 1
    ensures prev == steps - 1 ==> (prev + 1) % steps == 0
  {
    if prev + 1 < steps {
      ModOfSum(prev + 1, 0, steps, prev + 1);
    } else if prev == steps - 1 {
      ModOfSum(prev + 1, 1, steps, 0);
    }
  }

  /** The index after `k` ticks from `start`. */
  function AfterTicks(start: nat, steps: nat, k: nat): (r: nat)
    requires steps >= 1
    ensures k > 0 ==> r < steps
  {
    if k == 0 then start else Advance(AfterTicks(start, steps, k - 1), steps)
  }

  /** `k` ticks move the index `k` places round the cycle. */
  lemma {:induction false} AfterTicksIsRotation(start: nat, steps: nat, k: nat)
    requires steps >= 1
    ensures AfterTicks(start, steps, k) == (if k == 0 then start else (start + k) % steps)
  {
    if k > 1 {
      AfterTicksIsRotation(start, steps, k - 1);
      var prev := (start + k - 1) % steps;
      ModSuccessor(start + k - 1, steps);
      ModSuccessor(prev, steps);
      ModOfSum(prev, 0, steps, prev);
    }
  }

  /** From the first image, the `j`-th tick shows image `j`, and `steps` ticks come back to it:
      every image is shown once per cycle. */
  lemma EveryImageShownInTurn(steps: nat, j: nat)
    requires steps >= 1 && j < steps
    ensures AfterTicks(0, steps, j) == j
    ensures AfterTicks(0, steps, steps) == 0
  {
    AfterTicksIsRotation(0, steps, j);
    AfterTicksIsRotation(0, steps, steps);
    if j > 0 {
      ModOfSum(j, 0, steps, j);
    }
    ModOfSum(steps, 1, steps, 0);
  }

  // ---------------------------------------------------------------------------
  // Progress labels: `String(n).padStart(2, "0")`
  // ---------------------------------------------------------------------------

  predicate IsDigit(c: char) { '0' as int <= c as int <= '9' as int }

  predicate AllDigits(s: string) { forall i :: 0 <= i < |s| ==> IsDigit(s[i]) }

  function DigitChar(d: nat): (c: char)
    requires d < 10
    ensures IsDigit(c) && c as int - '0' as int == d
  {
    ('0' as int + d) as char
  }

  /** The number a string of decimal digits denotes, leading zeros allowed. */
  function DecimalValue(s: string): nat
    requires AllDigits(s)
  {
    if s == [] then 0
    else DecimalValue(s[..|s| - 1]) * 10 + (s[|s| - 1] as int - '0' as int)
  }

  /** `String(n)` for a non-negative integer: its decimal digits, with no leading zero. */
  function NatToDecimal(n: nat): (s: string)
    ensures |s| >= 1
    ensures AllDigits(s)
    ensures s[0] == '0' ==> n == 0 && s == "0"
    ensures DecimalValue(s) == n
  {
    if n < 10 then [DigitChar(n)]
    else
      var s := NatToDecimal(n / 10) + [DigitChar(n % 10)];
      assert s[..|s| - 1] == NatToDecimal(n / 10);
      s
  }

  /** `s.padStart(width, fill)`. */
  function PadStart(s: string, width: nat, fill: char): (r: string)
    ensures |r| == if |s| >= width then |s| else width
    ensures r[|r| - |s|..] == s
    ensures forall i :: 0 <= i < |r| - |s| ==> r[i] == fill
  {
    if |s| >= width then s else seq(width - |s|, _ => fill) + s
  }

  /** Leading zeros do not change the value of a digit string. */
  lemma {:induction false} LeadingZerosKeepValue(z: nat, s: string)
    requires AllDigits(s)
    ensures AllDigits(seq(z, _ => '0') + s)
    ensures DecimalValue(seq(z, _ => '0') + s) == DecimalValue(s)
  {
    var t := seq(z, _ => '0') + s;
    if s == [] {
      assert t == seq(z, _ => '0');
      ZerosAreZero(z);
    } else {
      var s' := s[..|s| - 1];
      LeadingZerosKeepValue(z, s');
      assert t[..|t| - 1] == seq(z, _ => '0') + s';
    }
  }

  lemma {:induction false} ZerosAreZero(z: nat)
    ensures DecimalValue(seq(z, _ => '0')) == 0
  {
    if z > 0 {
      ZerosAreZero(z - 1);
      assert seq(z, _ => '0')[..z - 1] == seq(z - 1, _ => '0');
    }
  }

  /** A progress label: the number's digits, zero-padded to two places. */
  function Label(n: nat): (r: string)
    ensures |r| >= 2 && AllDigits(r)
  {
    PadStart(NatToDecimal(n), 2, '0')
  }

  /** A label is the number in two digits below 100 and in its own digits above;
      read back as a decimal it is the number itself. */
  lemma LabelDenotesNumber(n: nat)
    ensures n < 100 ==> |Label(n)| == 2
    ensures n >= 10 ==> Label(n) == NatToDecimal(n)
    ensures AllDigits(Label(n)) && DecimalValue(Label(n)) == n
  {
    var s := NatToDecimal(n);
    if n < 10 {
      assert |s| == 1;
      assert Label(n) == seq(1, _ => '0') + s;
      LeadingZerosKeepValue(1, s);
    } else {
      if n < 100 {
        assert |s| <= 2 by {
          if |s| > 2 { PrefixValueBound(s); }
        }
      }
    }
  }

  /** A digit string with a non-zero first digit and at least three digits denotes at least 100. */
  lemma PrefixValueBound(s: string)
    requires |s| > 2 && AllDigits(s)
    requires s[0] != '0'
    ensures DecimalValue(s) >= 100
  {
    var t := s[..|s| - 1];
    assert t[0] == s[0];
    if |t| > 2 {
      PrefixValueBound(t);
    } else {
      assert DecimalValue(t[..1]) == s[0] as int - '0' as int by {
        assert t[..1][..0] == [];
      }
      assert t[..|t| - 1] == t[..1];
    }
  }

  // ---------------------------------------------------------------------------
  // The component
  // ---------------------------------------------------------------------------

  /** The gallery's props and state. */
  class Gallery {
    var images: seq<Image>
    var intervalMs: int
    var pauseOnHover: bool
    var index: nat
    var isHovering: bool

    /** The first image, no hover; a prop left out takes its default. */
    constructor (images: seq<Image>, intervalMs: Option<int>, pauseOnHover: Option<bool>)
      ensures this.images == images
      ensures this.intervalMs == if intervalMs.Some? then intervalMs.value else DefaultIntervalMs
      ensures this.pauseOnHover == if pauseOnHover.Some? then pauseOnHover.value else DefaultPauseOnHover
      ensures index == 0 && !isHovering
    {
      this.images := images;
      this.intervalMs := if intervalMs.Some? then intervalMs.value else DefaultIntervalMs;
      this.pauseOnHover := if pauseOnHover.Some? then pauseOnHover.value else DefaultPauseOnHover;
      index := 0;
      isHovering := false;
    }

    /** The interval is installed exactly when there are images and hovering does not pause it. */
    predicate TimerRunning()
      reads this
    {
      |images| > 0 && !(pauseOnHover && isHovering)
    }

    /** The image on show, or `None` for the "No images" fallback; an index left past the
        end by a shorter image list also shows the fallback until the next tick. */
    function Current(): (current: Option<Image>)
      reads this
      ensures current.Some? <==> index < |images|
      ensures current.Some? ==> current.value == images[index]
    {
      if |images| > 0 && index < |images| then Some(images[index]) else None
    }

    /** The two progress labels: they read back as the one-based position and the number of
        steps, each in two digits while it is below 100. */
    function ProgressLabels(): (labels: (string, string))
      reads this
      ensures AllDigits(labels.0) && DecimalValue(labels.0) == index + 1
      ensures AllDigits(labels.1) && DecimalValue(labels.1) == Steps(|images|)
      ensures index + 1 < 100 ==> |labels.0| == 2
      ensures Steps(|images|) < 100 ==> |labels.1| == 2
    {
      var position, steps := index + 1, Steps(|images|);
      LabelDenotesNumber(position);
      LabelDenotesNumber(steps);
      (Label(position), Label(steps))
    }

    /** One firing of the interval: it only fires while the timer runs, and the timer keeps
        running after it. */
    method Tick()
      requires TimerRunning()
      modifies this`index
      ensures index == Advance(old(index), Steps(|images|))
      ensures index < |images|
      ensures TimerRunning()
    {
      index := (index + 1) % Steps(|images|);
    }

    /** Hovering stops the interval when the gallery pauses on hover, and leaves it as it was
        otherwise. */
    method MouseEnter()
      modifies this`isHovering
      ensures isHovering
      ensures pauseOnHover ==> !TimerRunning()
      ensures !pauseOnHover ==> TimerRunning() == old(TimerRunning())
    {
      isHovering := true;
    }

    /** Leaving restarts the interval whenever there are images. */
    method MouseLeave()
      modifies this`isHovering
      ensures !isHovering
      ensures TimerRunning() <==> |images| > 0
      ensures old(TimerRunning()) ==> TimerRunning()
    {
      isHovering := false;
    }

    /** New `images` props: the index is not reset. */
    method SetImages(images: seq<Image>)
      modifies this`images
      ensures this.images == images
    {
      this.images := images;
    }
  }
}
