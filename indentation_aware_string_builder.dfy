/**
 * A line buffer that prefixes every appended line with the indentation of the
 * current nesting level, and joins the lines with newlines at the end.
 */
module IndentationBuilder {
  import opened Wrappers
  import opened Text

  datatype IndentationType = Tabs | Spaces

  /** The unit width used when spaces are chosen but no tab size is set. */
  const DefaultTabSize: nat := 4

  /**
   * The prefix of a line at `level`: `level * tabSize` spaces (the default
   * width when no size is set), or `level` tabs whatever the tab size is.
   */
  function Indentation(indentationType: IndentationType, tabSize: Option<nat>, level: nat): (r: string)
    ensures indentationType == Spaces ==> |r| == level * tabSize.GetOr(DefaultTabSize) && AllChars(r, ' ')
    ensures indentationType == Tabs ==> |r| == level && AllChars(r, '\t')
  {
    match indentationType
    case Spaces => Repeat(' ', level * tabSize.GetOr(DefaultTabSize))
    case Tabs => Repeat('\t', level)
  }

  class IndentationAwareStringBuilder {
    var indentationType: IndentationType
    var tabSize: Option<nat>
    var level: nat
    var buffer: seq<string>

    /** A builder indenting by four spaces, at level 0, with no lines. */
    constructor ()
      ensures indentationType == Spaces && tabSize == Some(DefaultTabSize)
      ensures level == 0 && buffer == []
    {
      indentationType := Spaces;
      tabSize := Some(DefaultTabSize);
      level := 0;
      buffer := [];
    }

    /** Chooses the indentation unit; this resets the tab size for that unit. */
    method WithIndentationType(t: IndentationType)
      modifies this
      ensures indentationType == t
      ensures tabSize == (match t case Spaces => Some(DefaultTabSize) case Tabs => None)
      ensures level == old(level) && buffer == old(buffer)
    {
      indentationType := t;
      tabSize := match indentationType
        case Spaces => Some(DefaultTabSize)
        case Tabs => None;
    }

    /** Sets the number of spaces per level. */
    method WithTabSize(n: nat)
      modifies this
      ensures tabSize == Some(n)
      ensures indentationType == old(indentationType) && level == old(level) && buffer == old(buffer)
    {
      tabSize := Some(n);
    }

    /** Appends one line, indented for the current level. */
    method Add(line: string)
      modifies this
      ensures buffer == old(buffer) + [Indentation(indentationType, tabSize, level) + line]
      ensures indentationType == old(indentationType) && tabSize == old(tabSize) && level == old(level)
    {
      var indentString := match indentationType
        case Spaces => ' '
        case Tabs => '\t';
      var currentIndentation := match indentationType
        case Spaces => Repeat(indentString, level * tabSize.GetOr(DefaultTabSize))
        case Tabs => Repeat(indentString, level);
      buffer := buffer + [currentIndentation + line];
    }

    method IncreaseIndentation()
      modifies this
      ensures level == old(level) + 1
      ensures indentationType == old(indentationType) && tabSize == old(tabSize) && buffer == old(buffer)
    {
      level := level + 1;
    }

    /** Leaves one level of nesting; at level 0 the unsigned counter would underflow. */
    method DecreaseIndentation()
      requires level > 0
      modifies this
      ensures level == old(level) - 1
      ensures indentationType == old(indentationType) && tabSize == old(tabSize) && buffer == old(buffer)
    {
      level := level - 1;
    }

    /** The buffered lines joined with newlines. */
    method BuildString() returns (s: string)
      ensures s == Join(buffer, "\n")
    {
      s := Join(buffer, "\n");
    }
  }

  /** An increase followed by a decrease leaves the builder as it was. */
  method IncreaseThenDecrease(b: IndentationAwareStringBuilder)
    modifies b
    ensures b.level == old(b.level) && b.buffer == old(b.buffer)
    ensures b.indentationType == old(b.indentationType) && b.tabSize == old(b.tabSize)
  {
    b.IncreaseIndentation();
    b.DecreaseIndentation();
  }
}
