/** White space and letter case, as the services compare and trim identifiers. ASCII only. */
module Text {
  import opened Wrappers

  predicate IsSpace(c: char) { c == ' ' || '\t' <= c <= '\r' }

  /** Nothing is left of it once trimmed. */
  predicate IsBlank(name: Name) {
    forall c | c in name.text :: IsSpace(c)
  }

  function TrimLeft(s: string): string { if s != "" && IsSpace(s[0]) then TrimLeft(s[1..]) else s }
  function TrimRight(s: string): string { if s != "" && IsSpace(s[|s| - 1]) then TrimRight(s[..|s| - 1]) else s }
  function Trim(name: Name): Name { Name(TrimRight(TrimLeft(name.text))) }

  function Lower(c: char): char {
    if 'A' <= c <= 'Z' then c - 'A' + 'a' else c
  }

  /** Equal but for the case of letters. */
  predicate SameFold(a: Name, b: Name) {
    |a.text| == |b.text| && forall i | 0 <= i < |a.text| :: Lower(a.text[i]) == Lower(b.text[i])
  }
}
