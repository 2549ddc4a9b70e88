/** Colourised console lines (utils/log.ts). */
module Log {

  /** The two severities a console line can carry. */
  datatype LogType = Info | Error

  /** ANSI escape that switches the terminal colour for each severity. */
  const InfoColor: string := "\U{1B}[32m"   // green
  const ErrorColor: string := "\U{1B}[31m"  // red

  /** ANSI escape that restores the terminal's default colour. */
  const ResetColor: string := "\U{1B}[0m"

  /** The lookup table `colors`; both severities have an entry, so the `|| ''` fallback never applies. */
  function Color(logType: LogType): (c: string)
    ensures |c| == 5 && c[0] == '\U{1B}' && c[1] == '[' && c[4] == 'm'
    ensures c[2..4] == (if logType == Info then "32" else "31")
  {
    match logType
    case Info => InfoColor
    case Error => ErrorColor
  }

  /** Wraps `str` in the colour of `logType`, Info when none is given. */
  function ColorizeLog(str: string, logType: LogType := Info): (r: string)
    ensures |r| == |str| + |Color(logType)| + |ResetColor| == |str| + 9
    ensures r[..5] == Color(logType)
    ensures r[5..|r| - 4] == str
    ensures r[|r| - 4..] == ResetColor
  {
    Color(logType) + str + ResetColor
  }

  /** Removes the 5-character colour prefix and the 4-character reset suffix. */
  function StripColor(line: string): string
    requires |line| >= 9
  {
    line[5..|line| - 4]
  }

  /** Stripping the colour codes gives back exactly the text that was coloured. */
  lemma StripColorizeLog(str: string, logType: LogType)
    ensures StripColor(ColorizeLog(str, logType)) == str
  {
  }

  /** Distinct texts or distinct severities never give the same line. */
  lemma ColorizeLogInjective(s1: string, t1: LogType, s2: string, t2: LogType)
    requires ColorizeLog(s1, t1) == ColorizeLog(s2, t2)
    ensures s1 == s2 && t1 == t2
  {
  }

  /** With no severity given, the line is green. */
  lemma ColorizeLogDefaultIsInfo(str: string)
    ensures ColorizeLog(str) == ColorizeLog(str, Info)
    ensures ColorizeLog(str)[..5] == "\U{1B}[32m"
  {
  }
}
