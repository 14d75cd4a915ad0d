/** The script's fixed configuration object. */
module Config {
  /** CSS selector of a video card container (selector matching is not modelled). */
  const VideoItemSelector: string := ".bili-video-card__wrap"
  /** Milliseconds between two periodic re-scans (timers are not modelled). */
  const CheckInterval: nat := 1000
  /** Milliseconds waited before each duration lookup (timers are not modelled). */
  const RequestDelay: nat := 500
  /** Videos strictly shorter than this many seconds are blocked. */
  const MinDuration: int := 120
}
