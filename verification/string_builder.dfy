/** The part of System.Text.StringBuilder the renderer uses: its text is a
    sequence of characters that `Append`, `AppendLine` and `Remove` change
    in place. */
module Builder {

  /** Environment.NewLine on the Windows hosts the plug-ins run on. */
  const NewLine: string := "\r\n"

  class StringBuilder {
    var content: string

    constructor ()
      ensures content == []
    {
      content := [];
    }

    method Append(s: string)
      modifies this
      ensures content == old(content) + s
    {
      content := content + s;
    }

    method AppendLine(s: string)
      modifies this
      ensures content == old(content) + s + NewLine
    {
      content := content + s + NewLine;
    }

    /** Removes `count` characters starting at `start`; .NET throws when the
        range leaves the text, which no caller in the model does. */
    method Remove(start: nat, count: nat)
      requires start + count <= |content|
      modifies this
      ensures content == old(content)[..start] + old(content)[start + count..]
      ensures |content| == |old(content)| - count
    {
      content := content[..start] + content[start + count..];
    }
  }
}
