/** Process configuration that the core reads (proxy.js:5). */
module Config {
  /** The upstream base URL, at its default value (the `UPSTREAM` environment variable unset). */
  const Upstream: string := "https://mapleranks.com"
}
