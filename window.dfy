/** The window's `scroll` event target, as far as the infinite lists use it. */
module Window {
  /**
   * A `scroll` listener. Each effect run registers a new closure, so each
   * registration gets a new number.
   */
  type Listener = nat
}
