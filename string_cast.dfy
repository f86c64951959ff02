/**
 * StringCast: the uniform text view of a substitution value. It is built
 * once from a string, a character-array literal or an integer, and its text
 * never changes afterwards (both fields are constant).
 */
module Cast {
  import Decimal

  class StringCast {
    /** Owned text, filled when the value had to be converted or copied. */
    const storage: string
    /** The text the value stands for (a view of `storage` or of a literal). */
    const str: string

    /** From a std::string: the view covers the moved-in storage. */
    constructor FromString(s: string)
      ensures storage == s && Text() == s
    {
      storage := s;
      str := s;
    }

    /** From a char array of N elements: the first N - 1 characters, without the terminator. */
    constructor FromLiteral(lit: array<char>)
      requires lit.Length >= 1
      ensures storage == "" && Text() == lit[..lit.Length - 1]
    {
      storage := "";
      str := lit[..lit.Length - 1];
    }

    /** From any other (integral) value t: the decimal text std::to_string(t), stored and viewed. */
    constructor FromInteger(n: int)
      ensures storage == Decimal.IntText(n) && Text() == storage
    {
      storage := Decimal.IntText(n);
      str := storage;
    }

    /** Default-constructed: empty. */
    constructor ()
      ensures storage == "" && Text() == ""
    {
      storage := "";
      str := "";
    }

    /** The string_view conversion operator. */
    function Text(): string
    {
      str
    }
  }
}
