/** The duration and easing constants of `lib/easings.ts` that the core uses. */
module Easings {

  // durations, in milliseconds
  const Instant: nat := 150
  const Fast: nat := 250
  const Normal: nat := 400
  const Slow: nat := 600
  const Slower: nat := 800
  const Slowest: nat := 1000
  const Enter: nat := 400
  const Exit: nat := 250
  const Stagger: nat := 50
  const StaggerFast: nat := 25
  const StaggerSlow: nat := 100

  // easing identifiers handed to the tween library
  const Smooth: string := "cubicBezier(0.25, 0.1, 0.25, 1.0)"
  const SmoothOut: string := "cubicBezier(0.0, 0.0, 0.2, 1.0)"
  const SmoothIn: string := "cubicBezier(0.4, 0.0, 1.0, 1.0)"
  const SmoothInOut: string := "cubicBezier(0.4, 0.0, 0.2, 1.0)"
  const AppleEaseOut: string := "cubicBezier(0.25, 0.46, 0.45, 0.94)"
  const AppleSpring: string := "spring(1, 100, 10, 0)"
  const AppleElastic: string := "cubicBezier(0.68, -0.6, 0.32, 1.6)"
}
