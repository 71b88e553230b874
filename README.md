# Adaptive Reno congestion control, modelled in Dafny

This project models `TcpAdaptiveReno`, an ns-3 congestion-control policy that
derives from Westwood+. It covers the per-connection state that the policy
keeps and the entry points the TCP socket calls:

- `PktsAcked` takes an RTT sample. It keeps the minimum RTT, with 0 meaning
  "no sample yet", and the latest RTT.
- `CongestionAvoidance` grows a base window by at least 1 per call and moves
  a probe window by `m_w_inc / cWnd`, never below 0. It writes their sum into
  the socket's congestion window.
- `GetSsThresh` runs on a congestion event. It shifts the RTT history,
  computes the congestion level, backs the base window off by `1 + level`
  (to at least two segments), clears the probe window and returns the new
  threshold.
- `Fork` goes through the copy constructor. That constructor zeroes the
  Adaptive Reno fields instead of copying them.

Files:

- `int_types.dfy` (module `IntTypes`): `uint32_t` and `int32_t` as subset
  types of `int`, plus 32-bit unsigned wrap-around.
- `adaptive_reno_spec.dfy` (module `AdaptiveRenoSpec`): the fields as a
  value, the arithmetic of each entry point, and the transition each whole
  call makes. Its lemmas state what holds over any sequence of calls.
- `tcp_adaptive_reno.dfy` (module `TcpAdaptiveRenoModel`): the class
  `TcpAdaptiveReno`. Its methods update the fields step by step, as the
  source does, and are proved against the transitions above. The class
  `TcpSocketState` holds the two socket fields the policy reads and writes.

Durations (ns-3 `Time`) are integers counting nanoseconds. The congestion
level is a `real`. The source converts both RTT differences to seconds, and
that common factor cancels out of the ratio.

Where the code does something undefined, the method requires that this
does not happen:

- A zero denominator in the congestion level, unless the numerator is
  positive: 0/0 gives NaN and a negative number over 0 gives -infinity, and
  either is later converted to an integer. Since the latest RTT is never
  below the minimum, only 0/0 can actually arise (`LevelDefinedUnderInv`).
- A probe window that does not fit an `int32_t` is converted to one.

Where the behaviour is defined, the model follows it:

- On IEEE 754 doubles, a positive number divided by zero gives +infinity,
  and the cap at 1 turns it into 1.
- `2 * m_segmentSize`, `seg_size * seg_size`, the base-window addition and
  `m_w_base + m_w_probe` wrap modulo 2^32.

Three points of the code that a reader might expect otherwise:

- `Fork` does not deep-copy: the copy constructor zeroes all eight
  Adaptive Reno fields.
- The congestion level is only capped at 1, not floored at 0. During
  congestion avoidance before the first congestion event, once an RTT
  sample has been seen, `m_rtt_j` is still 0, so the level is not positive, and it is negative once the latest
  RTT exceeds the minimum (`LevelBeforeFirstCongestionEvent`). At a
  congestion event, the level is always in [0, 1]
  (`LevelAtCongestionEventInUnitInterval`).
- A zero `m_rtt_min` means unset.

## Model

| member | source | states |
|---|---|---|
| `AdaptiveRenoSpec.SmoothedCongestionRtt` | tcp-adaptive-reno.cc:113-117 | when the previous smoothed RTT is below the minimum, the smoothing factor is 0 and the result is exactly the captured RTT; otherwise the result lies between the previous value and the captured RTT |
| `AdaptiveRenoSpec.CongestionLevel` | tcp-adaptive-reno.cc:118-121 | the level never exceeds 1. It is non-negative when the smoothed RTT is above the minimum. It is exactly 1 when the latest RTT reaches the smoothed RTT and the smoothed RTT is not below the minimum. Below that, it is the ratio of the two excursions above the minimum. It is negative when the smoothed RTT is below the minimum and the latest RTT is above it. A zero denominator is excluded unless the numerator is positive |
| `AdaptiveRenoSpec.LevelDefinedUnderInv` | tcp-adaptive-reno.cc:118-120 | when the latest RTT is not below the minimum, the level is undefined exactly when the smoothed RTT, the minimum and the latest RTT are all equal (0/0) |
| `AdaptiveRenoSpec.BaseIncrement` | tcp-adaptive-reno.cc:150-153 | the base-window growth is at least 1, and it is the truncated quotient of the 32-bit product `seg*seg` by the window whenever that quotient is at least 1 |
| `AdaptiveRenoSpec.ProbeUpdate` | tcp-adaptive-reno.cc:156-157 | the new probe is never negative. It is 0 exactly when `probe + inc/cWnd < 1`; otherwise it is that sum truncated. It is at least the old probe when the increment is non-negative |
| `AdaptiveRenoSpec.ProbeUpdateMonotone` | tcp-adaptive-reno.cc:156-157 | a larger increment never gives a smaller probe window |
| `AdaptiveRenoSpec.AfterCongestionAvoidance` | tcp-adaptive-reno.cc:141-161 | with no segments acked, nothing changes, including the congestion window. Otherwise: the smoothed RTT is refreshed and `m_w_inc` is set. The base grows by the base increment (at least 1) unless it wraps. The probe stays non-negative and does not shrink for a non-negative increment. The new window is `base + probe` modulo 2^32, and at least the base when the sum fits. No other field changes, and the invariant is kept |
| `AdaptiveRenoSpec.SsThreshold` | tcp-adaptive-reno.cc:171 | for a level in [0, 1], the threshold is at least `2*seg` (32-bit product) and lies between `max(2*seg, cWnd/2)` and `max(2*seg, cWnd)`. When it is not the floor, it is the truncation of `cWnd / (1 + level)` (`r*(1+level) <= cWnd < (r+1)*(1+level)`). It is never below that truncation, so it is exactly `max(2*seg, trunc(cWnd / (1 + level)))` |
| `AdaptiveRenoSpec.LevelAtCongestionEventInUnitInterval` | tcp-adaptive-reno.cc:166-169 | once the history is shifted, the smoothed RTT is at least the minimum, so the level computed at a congestion event lies in [0, 1] |
| `AdaptiveRenoSpec.AfterGetSsThresh` | tcp-adaptive-reno.cc:164-175 | the previous smoothed RTT becomes the old smoothed RTT, and the captured RTT becomes the latest RTT. A first event seeds the smoothed RTT with that RTT. The probe is cleared. The returned threshold equals the new base, is at least `2*seg`, and lies between `max(2*seg, cWnd/2)` and `max(2*seg, cWnd)`. Nothing else changes, and the invariant holds afterwards |
| `AdaptiveRenoSpec.FirstCongestionEventAfterOneSampleIsUndefined` | tcp-adaptive-reno.cc:166-169 | a congestion event right after a single positive RTT sample divides 0 by 0: the precondition of `GetSsThresh` excludes a reachable state |
| `AdaptiveRenoSpec.LevelBeforeFirstCongestionEvent` | tcp-adaptive-reno.cc:113-120 | before any congestion event, once an RTT sample has been seen, the level seen by congestion avoidance is defined and not positive, and it is negative when the latest RTT exceeds the minimum |
| `AdaptiveRenoSpec.AfterPktsAcked` | tcp-adaptive-reno.cc:88-108 | a zero RTT changes nothing. Otherwise, the counter handed to the bandwidth estimator grows by `packetsAcked`, the latest RTT is the sample, and the minimum becomes the sample when it was unset or larger. No other field changes, and the invariant is kept |
| `AdaptiveRenoSpec.RttHistory` | tcp-adaptive-reno.cc:98-105 | after any sequence of samples from a fresh instance: the minimum is 0 exactly when every sample was zero; otherwise it is the least non-zero sample. The latest RTT is the last non-zero sample. The minimum never exceeds the latest RTT. The counter is the sum over the accepted samples, provided the bandwidth estimator does not reset it between calls. Every other field is still 0 |
| `AdaptiveRenoSpec.Step` | tcp-adaptive-reno.h:76-90 | each entry point keeps the invariant: `rtt_min <= rtt_curr`, zero minimum exactly when no sample has been seen, and a non-negative probe window. An RTT sample is always defined |
| `AdaptiveRenoSpec.Run` | tcp-adaptive-reno.h:92-100 | after any sequence of defined calls, the invariant still holds; in particular the probe window is never negative |
| `TcpAdaptiveRenoModel.TcpAdaptiveReno.constructor` | tcp-adaptive-reno.cc:55-67 | every field starts at zero |
| `TcpAdaptiveRenoModel.TcpAdaptiveReno.Copy` | tcp-adaptive-reno.cc:69-81 | the eight Adaptive Reno fields are zeroed rather than copied; only the base-class counter comes from the source instance |
| `TcpAdaptiveRenoModel.TcpAdaptiveReno.Fork` | tcp-adaptive-reno.cc:178-181 | the result is a freshly allocated instance whose Adaptive Reno fields are all zero, whatever the state of the original |
| `TcpAdaptiveRenoModel.ForkedInstancesAreIndependent` | tcp-adaptive-reno.cc:178-181 | after a fork, a sample given to the original and another given to the clone each change only their own instance |
| `TcpAdaptiveRenoModel.TcpAdaptiveReno.PktsAcked` | tcp-adaptive-reno.cc:88-108 | follows `AfterPktsAcked`: a zero RTT leaves the object unchanged. Otherwise the counter grows by `packetsAcked`, the latest RTT is the sample, and the minimum never rises. The invariant is kept |
| `TcpAdaptiveRenoModel.TcpAdaptiveReno.EstimateCongestionLevel` | tcp-adaptive-reno.cc:111-122 | writes only `m_rtt_cong`: it is seeded with `m_rtt_j` when the previous value is below the minimum, and smoothed otherwise. Returns the congestion level, which is at most 1 |
| `TcpAdaptiveRenoModel.TcpAdaptiveReno.EstimateIncWnd` | tcp-adaptive-reno.cc:125-138 | refreshes the smoothed RTT through the level computation and stores the supplied increment in `m_w_inc`; nothing else changes |
| `TcpAdaptiveRenoModel.TcpAdaptiveReno.CongestionAvoidance` | tcp-adaptive-reno.cc:141-161 | follows `AfterCongestionAvoidance` on the object and the socket's window: with no segments acked, neither changes. Otherwise the probe stays non-negative, does not shrink for a non-negative increment, and the window becomes `base + probe` modulo 2^32 |
| `TcpAdaptiveRenoModel.TcpAdaptiveReno.GetSsThresh` | tcp-adaptive-reno.cc:164-175 | follows `AfterGetSsThresh`: shifts the RTT history and clears the probe. It returns the new base, which is at least `2*seg` and lies between `max(2*seg, cWnd/2)` and `max(2*seg, cWnd)` |

## Left out

- `TcpWestwoodPlus::EstimateBW` and the bandwidth estimate `m_currentBW` (tcp-adaptive-reno.cc:107): the Westwood+ base class is not part of this model.
- The body of `EstimateIncWnd` (tcp-adaptive-reno.cc:128-137): it is double arithmetic with `std::exp` over the bandwidth estimate. Its result is a parameter `inc`, which may be any `int32_t`. The level is still computed first, so the update of `m_rtt_cong` and the requirement that the level be defined are kept.
- `AdaptiveRenoSpec.SmoothedCongestionRtt`: the source multiplies `Time` values by the `float` 0.85 and by 1 minus it. The model uses `floor((85*prev + 15*rttJ)/100)` instead, so the result is exact only in the seeding branch. Rounding of the two products could put the real result one nanosecond outside the bounds stated.
- `AdaptiveRenoSpec.CongestionLevel`, `AdaptiveRenoSpec.ProbeUpdate` and `AdaptiveRenoSpec.SsThreshold`: the model computes with exact arithmetic. It does not model double-precision rounding of the seconds conversion, of `m_w_probe + m_w_inc * 1.0 / cWnd` or of `m_cWnd / (1.0 + congestion)`. Near an integer boundary, that rounding can change the truncated probe or threshold by one.
- `TcpAdaptiveRenoModel.TcpAdaptiveReno.CongestionAvoidance`: requires that the level be defined, that `cWnd` be non-zero and that the new probe fit an `int32_t`. The source does not check these; violating any of them leads to an undefined float-to-integer conversion.
- `TcpAdaptiveRenoModel.TcpAdaptiveReno.GetSsThresh`: requires that the level not be 0/0. As `FirstCongestionEventAfterOneSampleIsUndefined` shows, a real call sequence can break this, and the source's result is then undefined.
- `AdaptiveRenoSpec.AfterPktsAcked`, `AdaptiveRenoSpec.RttHistory` and `TcpAdaptiveRenoModel.TcpAdaptiveReno.PktsAcked`: the counter `ackedSegments` they state is its value after tcp-adaptive-reno.cc:98. For one call (`AfterPktsAcked`, `PktsAcked`), that is the value `TcpWestwoodPlus::EstimateBW` receives at line 107. What that base-class call then does to the counter (it may reset it) is not part of this model, so the value after the whole call is not promised. `RttHistory`'s statement that the counter is the sum over all accepted samples holds only if `EstimateBW` leaves the counter unchanged between calls.
- `ackedSegments`: the counter is declared in the Westwood+ base class, which is not part of this model. It is an unbounded `nat`, so any 32-bit wrap is not modelled. The base-class copy constructor is not part of this model either; the model copies the counter.
- ns-3 `Time` is a 64-bit count; durations here are unbounded integers, so their overflow (centuries of simulated time) is not modelled.
- `GetSsThresh`'s `bytesInFlight` is accepted and unused, as in the source.
- Object registration (`GetTypeId`), logging, the destructor, the unused `FilterType` enum and the private `EstimateBW` declaration in tcp-adaptive-reno.h: none affects the state.
- 1905024.cc: the simulation script (topology, traffic source, tracing and throughput statistics) is not part of this model.
