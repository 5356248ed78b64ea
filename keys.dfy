/** Keys as the keyboard listener reports them to `on_press` / `on_release`. */
module Keys {

  datatype Key =
    | Shift   // pynput's Key.shift
    | Hold    // HOLD_KEY: Option in dictator.py, Control in dictator_app.py
    | Other   // any other key

  /** What the recorder's state means, in the terms of the key policy. */
  datatype Mode = Idle | Momentary | Continuous
}
