/** Text as lines: a line runs up to and including its newline. */
module TextLines {

  /** The length of the first line. */
  function LineLength(text: string): (n: nat)
    ensures n <= |text| && (text != "" ==> n > 0)
  {
    if text == "" then 0 else if text[0] == '\n' then 1 else 1 + LineLength(text[1..])
  }
}
