/** Characters and the shapes of short texts that several controllers check. */
module Characters {
  predicate IsDigit(c: char) {
    '0' <= c <= '9'
  }

  predicate IsHexDigit(c: char) {
    IsDigit(c) || 'a' <= c <= 'f'
  }

  /** `^[0-9a-f]{n}$`. */
  predicate IsHexText(text: string, n: nat) {
    |text| == n && forall i | 0 <= i < n :: IsHexDigit(text[i])
  }

  /** `^[1-9][0-9]{0,19}$`: a run id or a run attempt. */
  predicate IsRunCoordinate(s: string) {
    1 <= |s| <= 20 && s[0] != '0' && forall i | 0 <= i < |s| :: IsDigit(s[i])
  }
}
