# Brightside-Go command core, modelled in Dafny

Brightside-Go is a personal command-line assistant. Most of its commands hand
work to external tools. Underneath that glue sit a few pieces of sequential
decision logic, and this project models and proves them:

- `Dashboard` (`dashboard.dfy`) is the terminal menu. It has a title, a cursor
  and five options. `Update` handles the `q`, `down`, `up` and `enter` keys, and
  `View` draws one frame. `Run` is a synchronous stand-in for the event loop:
  it feeds a sequence of messages through `Update`, and a quit takes effect at
  once.
- `News` (`news.dfy`) covers the category-to-feeds table. It has a built-in
  default and a configuration-file fallback, and it backs the `news-add`,
  `news-remove` and `news` commands.
- `Convert` (`convert.dfy`) is the decision chain of the `convert` command. It
  picks file-not-found, no format, already in the format, unsupported format,
  or an encoder run on a computed output path.
- `Grab` (`grab.dfy`) chooses between yt-dlp, wget and curl for the `grab`
  command.
- `Setup` (`setup.dfy`) covers the helpers and the step order of the `setup`
  command. The effects come out as a trace.
- `GoStd` (`gostd.dfy`) models the Go library calls the decisions depend on:
  `strings.Contains`, `strings.TrimSuffix`, `strings.ToLower` and
  `path/filepath.Ext`. It also holds the argument vector of `exec.Command`.
  `HasPrefix` and `HasSuffix` are helpers used to define `Contains` and
  `TrimSuffix`; the code itself does not call them. `Wrappers`
  (`wrappers.dfy`) holds `Option`.

Anything that touches the outside world comes in as a parameter:

- whether a file exists;
- the outcome of reading and decoding the news configuration;
- the feed parser;
- the HTTP HEAD response;
- the operating system, `$SHELL` and `$HOME`;
- which commands are on the PATH.

External processes appear as `Command` values or as steps in a trace. They are
never run.

Five behaviours of the code are modelled as written:

- The conversion lower-cases the extension before trimming it. A path like
  `song.WAV` converted to mp3 therefore becomes `song.WAV.mp3`
  (`Convert.ConvertKeepsMixedCaseExt`, `Convert.UpperCaseExtExample`).
- `enter` indexes the options with the cursor. With a cursor off the list,
  the Go code would panic; the model returns `IndexPanic`, and
  `Dashboard.RunKeepsCursorInRange` shows that no message sequence from a
  valid state reaches it.
- `View` does not use the model's `title` field. It styles a fixed banner, so
  the styled text is a parameter of `Dashboard.View`.
- The quit key is the letter `q` (ui/dashboard.go:28).
- `grab` takes a bare host name for a file. `filepath.Ext("https://example.com")`
  is ".com", so that URL is reported as a ".com" file download and goes to
  wget without the web-page probe (`Grab.BareHostIsFileDownload`).

## Model

| member | source | states |
|---|---|---|
| `Dashboard.InitialModel` | ui/dashboard.go:67-71 | the launch state has the cursor at 0 on five options, from "Live Twitch Chat" to "Exit", so the cursor invariant holds from the start |
| `Dashboard.Update` | ui/dashboard.go:24-44 | only `enter` with the cursor off the list can fail, and a valid state stays valid under every message; title and options never change and the cursor moves at most one step; `down` increments iff the cursor is above the last option and otherwise changes nothing (no wrap); `up` decrements iff the cursor is above 0; `q` quits and changes no state; `enter` prints the option under the cursor and changes nothing; any other message changes nothing and issues no command |
| `Dashboard.RunKeepsCursorInRange` | ui/dashboard.go:31-38 | from a valid state, any message sequence runs without a crash and ends with the cursor still on one of the unchanged options |
| `Dashboard.QuitIgnoresLaterInput` | ui/dashboard.go:28-30 | once the stand-in loop has quit, appending further messages changes nothing |
| `Dashboard.QuitOnlyOnQ` | ui/dashboard.go:27-30 | a loop that quit did so on the last message it consumed, which was `q`, and no earlier message was `q` |
| `Dashboard.Run` | ui/dashboard.go:73 | the synchronous stand-in for the event loop never changes the title or the options; a loop that quit consumed at least the quitting message and no more messages than it was given; a loop that did not quit consumed them all |
| `Dashboard.ClampedAtBothEnds` | ui/dashboard.go:31-38 | on options A, B, C starting at 0, three `down`s stop at 2 and four `up`s then stop at 0 |
| `Dashboard.View` | ui/dashboard.go:47-63 | the frame is the styled title, a blank line, the instruction line, a blank line, then the option lines joined in order |
| `Dashboard.OptionLinesShape` | ui/dashboard.go:54-60 | there is one line per option and it ends with that option's label; a line starts with the pointer iff it is at the cursor, and with three blanks iff it is not |
| `Dashboard.ExactlyOneMarkedLine` | ui/dashboard.go:54-60 | under a valid cursor the set of lines carrying the pointer is exactly the cursor's line |
| `News.DefaultNewsSources` | cmd/news.go:18-33 | the built-in table has exactly the categories Tech, World and Hacker, with four, three and one feeds; Hacker's only feed is the Hacker News RSS URL |
| `News.LoadNewsSources` | cmd/news.go:45-56 | the decoded table is used when the read and the decode both succeed; otherwise the three-category default table is used |
| `News.AddNewsSource` | cmd/news.go:113-118 | the saved table holds the old keys plus the category; the category's list is its old list (empty if absent) followed by the URL; every other category is unchanged |
| `News.WithoutAppend` | cmd/news.go:128-133 | filtering a URL out of a concatenation filters each part, so the order of the remaining feeds is kept |
| `News.WithoutContents` | cmd/news.go:128-133 | after filtering, the URL no longer occurs; every other feed occurs as often as before; the length drops by the URL's count |
| `News.RemoveUndoesAdd` | cmd/news.go:113-135 | removing a URL right after appending it gives the same list as removing it from the original |
| `News.RemoveNewsSource` | cmd/news.go:121-138 | an unknown category reports not-found and saves nothing; otherwise the saved table keeps every key, the category's list loses every copy of the URL, and other categories are unchanged |
| `News.Take` | cmd/news.go:100-107 | a feed shows its first min(limit, number of items) items in order, and none when the limit is at most 0 |
| `News.PrintFeed` | cmd/news.go:91-109 | the counting loop prints an error line for a feed that fails to parse; for a parsed feed it prints the title, the items allowed by the limit and a separator |
| `News.FetchNews` | cmd/news.go:69-110 | an unknown category prints only the list of known categories; a known one prints the fetching banner, then each feed's block in list order |
| `News.FetchCategory` | cmd/news.go:82-110 | the loop over a known category's feeds prints the fetching banner, then the block of every feed in list order, each parsed with the given parser and cut at the limit |
| `News.FeedsOutputAppend` | cmd/news.go:91-109 | the output for a list of feeds is the outputs of its parts, one after the other |
| `News.FeedsOutputSplit` | cmd/news.go:91-109 | for any block function, the output of a list is the output before feed k, then feed k's block, then the output after it |
| `News.FeedBlockInPlace` | cmd/news.go:91-97 | feed k's block sits between the blocks of the feeds before and after it, whether or not it parsed, so a failing feed does not stop the others |
| `News.NoItemsWithoutPositiveLimit` | cmd/news.go:100-104 | with a limit of zero or less no item line is printed for any feed |
| `Convert.ConvertFile` | cmd/convert.go:27-62 | a missing file is reported whatever the format; an empty format gives the no-format warning; a format other than mp3 or wav is unsupported; the file is already in the format iff its lower-cased extension is "." + format; otherwise ffmpeg gets `-i input output`, where output is the base name plus "." + format |
| `Convert.ConvertReplacesLowerCaseExt` | cmd/convert.go:33-54 | when the extension is already lower-case, the output is the input with that extension replaced by the target one |
| `Convert.ConvertKeepsMixedCaseExt` | cmd/convert.go:33-34 | when the extension has upper-case letters, nothing is trimmed and the output is the input plus "." + format |
| `Convert.ConvertedOutputHasTargetExt` | cmd/convert.go:42-58 | the extension of the output path is exactly "." + format |
| `Convert.ConvertTwiceIsAlreadyDone` | cmd/convert.go:42-54 | converting the output again to the same format reports that it is already in that format |
| `Convert.UpperCaseExtExample` | cmd/convert.go:33-48 | `song.WAV` converted to mp3 is written to `song.WAV.mp3` |
| `GoStd.Contains` | cmd/grab.go:30 | a string can only contain a pattern no longer than itself |
| `GoStd.ContainsIff` | cmd/grab.go:30 | the scanning substring test agrees with "some window of the string equals the pattern" |
| `GoStd.TrimSuffix` | cmd/convert.go:34 | a suffix that is present is removed exactly, and a string without the suffix is unchanged |
| `GoStd.ToLower` | cmd/convert.go:33 | lower-casing keeps the length of the string |
| `GoStd.ToLowerLetters` | cmd/convert.go:33 | each ASCII upper-case letter becomes the lower-case letter 32 code points below it, and every other character is kept |
| `GoStd.Ext` | cmd/grab.go:37 | a non-empty extension starts with '.' and is no longer than the path |
| `GoStd.ExtShape` | cmd/convert.go:33 | the extension is empty only when every '.' lies before a '/'; otherwise it is a suffix of the path that starts with '.' and has no further '.' or '/' |
| `GoStd.ExtOfAppended` | cmd/convert.go:48 | appending "." and a name without '.' or '/' makes ".name" the extension |
| `Grab.IsWebPage` | cmd/grab.go:96-103 | a page is HTML iff the HEAD request succeeded and its Content-Type contains "text/html" |
| `Grab.DownloadFile` | cmd/grab.go:26-54 | each URL gets exactly one downloader, and the URL is its last argument; a video-host URL always goes to yt-dlp; the plan is exactly wget on the URL iff the URL is not a video URL and has an extension or is reported as HTML, and exactly curl on the URL iff it is not a video URL, has no extension and is not HTML; a URL decided by its extension is reported as a file download of that extension; the probe result matters only when host and extension did not decide |
| `Grab.ProbeNotConsulted` | cmd/grab.go:30-42 | when the host or the extension decides, any two HEAD-probe results give the same plan |
| `Grab.NoVideoHostWithoutYAndK` | cmd/grab.go:30 | a URL containing neither 'y' nor 'k' contains none of the three video-host names |
| `Grab.BareHostExt` | cmd/grab.go:37 | the extension of "https://example.com" is ".com" |
| `Grab.BareHostIsFileDownload` | cmd/grab.go:30-41 | "https://example.com" is detected as a ".com" file download and goes to wget, whatever the page probe would say |
| `Grab.VideoHostBeatsExtension` | cmd/grab.go:30-34 | a youtu.be link ending in ".mp4" still goes to yt-dlp |
| `Setup.GetShellConfig` | cmd/setup.go:286-296 | a shell whose name contains zsh gives HOME/.zshrc, even when it also contains bash; bash alone gives HOME/.bashrc; the result is empty iff the name contains neither |
| `Setup.AppendToFile` | cmd/setup.go:200-214 | the open fails iff the file is absent, and it is then left alone; the write fails iff the file opened and the write was refused; on success exactly "\n" + line + "\n" is added at its end and no other file changes |
| `Setup.MissingMembers` | cmd/setup.go:60-66 | a package gets an install command iff it is listed and its command is not on the PATH |
| `Setup.MissingAppend` | cmd/setup.go:79-85 | the missing packages keep list order: filtering a concatenation filters each part |
| `Setup.InstallPackages` | cmd/setup.go:60-66 | the package loop issues one install command per missing package, in list order, and nothing else |
| `Setup.ConfigureShell` | cmd/setup.go:111-143 | shell configuration does nothing iff no start-up file is known; with one, it restores .zshrc, appends the PATH export to that start-up file, installs the theme, and sources .zshrc iff Oh My Zsh is installed |
| `Setup.InstallMacDependencies` | cmd/setup.go:53-69 | on macOS: the Homebrew installer runs only when brew is missing; then `brew install` runs for each missing package, then the theme install |
| `Setup.InstallLinuxDependencies` | cmd/setup.go:72-88 | on Linux: without apt the process exits with status 1 and installs nothing; otherwise `sudo apt install -y` runs for each missing package, then the theme install |
| `Setup.RunSetup` | cmd/setup.go:27-50 | the steps of setup come out in order: the reset if flagged, the OS's dependencies or an exit, then moving the binary, configuring the shell and the closing message |
| `Setup.ResetFirstAndOnlyOnRequest` | cmd/setup.go:30-32 | the reset happens iff the flag is set, and then as the first step and nowhere else |
| `Setup.UnsupportedOsExitsEarly` | cmd/setup.go:34-46 | on an OS other than darwin or linux the last step is exit 1, and the binary is not moved, the shell is not touched and no process runs |
| `Setup.LinuxWithoutAptInstallsNothing` | cmd/setup.go:74-77 | on Linux without apt the last step is exit 1; no process runs and the binary is not moved |
| `Setup.ExitIsFinal` | cmd/setup.go:27-50 | no step before the last is an exit or the completion; the run completes iff the OS is darwin, or linux with apt, and otherwise ends with exit 1 |

## Left out

- `cmd/twitch.go` (an IRC client driven by library callbacks) and `cmd/jack.go` (a banner and a call into the dashboard) are not part of this model.
- The Bubble Tea runtime is not modelled. That includes the terminal, `tea.NewProgram(...).Run()` and its error exit. `Dashboard.Run` stands in for its event loop synchronously. The runtime carries out `tea.Quit` as an asynchronous command, so a key already queued behind `q` may still reach `Update`; in `Run` a quit takes effect at once.
- Styling is not modelled. The lipgloss title, the ANSI colour codes, the emoji and the exact wording of printed messages are left out; printed lines are datatype values.
- `time.Sleep` and the loading dots of the `news` command are not modelled.
- Selecting a menu entry only prints an acknowledgment in the code. No subsystem is dispatched, and none is invented here.
- Process runs are not modelled: ffmpeg, yt-dlp, wget, curl, brew, apt, git, `sudo mv` and zsh. Their exit status and the success or failure messages that follow are not modelled either.
- File and environment effects are inputs or trace steps: `os.Stat`, `os.ReadFile`/`WriteFile`, `copyFile`, `MkdirAll`, `Chmod`, `RemoveAll`, `os.Executable`, `os.Setenv` and `exec.LookPath`.
- `installP10K`, `moveBinary`, `restoreZshConfig` and `resetInstallation` each appear as a single trace step. Their own checks and clones are not modelled.
- Setup.RunSetup: command availability is a fixed function for the whole run. A command installed earlier in the run is not seen by later checks. Whether Oh My Zsh is found is one input, the outcome of the check made after installP10K (cmd/setup.go:130), which may follow its removal by the reset.
- Setup.AppendToFile: `Files` holds the files that can be opened for appending, so a file the open is refused for (cmd/setup.go:201) counts as absent. After a failed write the file may hold part of the line; the model reports `WriteFailed` and says nothing about the file's contents.
- JSON encoding and decoding are not modelled. The decoded table is an input, and `saveNewsSources` is taken to store the table it is given.
- News.AddNewsSource: a configuration file holding JSON `null` decodes to a nil map, and the Go code then panics on insertion. The model has no nil map, so that file behaves like an empty table.
- News.FetchNews: Go prints the known categories in random map order; the model reports them as a set. The feed parser is a function of the URL, so one URL parses the same way throughout a run.
- The default table is a plain value. Go's sharing of the global default map between calls is not modelled.
- GoStd.ToLower: only the ASCII letters A–Z are lower-cased. Go's `strings.ToLower` also maps other Unicode upper-case letters.
- GoStd.Ext: models `filepath.Ext` for '/' as the only path separator, as on macOS and Linux.
- Grab.IsWebPage: the HEAD request is an input `HeadResponse`. Redirects, timeouts and header parsing are not modelled.
- Dashboard.OptionLinesShape: lines are stated as a sequence. Splitting the joined frame back into lines assumes that no label contains a newline.
