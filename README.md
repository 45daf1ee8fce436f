# Hot topics analyzer — a Dafny model

The system fetches Baidu's realtime trending list and keeps the first ten topics. It
saves them as a JSON snapshot, draws a horizontal bar chart and asks the DeepSeek chat
service for an analysis. It then writes an HTML report and mails it. This project models
the `HotTopicsAnalyzer` class of `hot_topics_analyzer.py` and proves properties of the
model.

The model covers:
- how the provider's decoded response becomes at most ten topic records;
- the fixed order of the six stages of `run`, and its single fatal branch (an empty
  fetch);
- how each later stage degrades instead of stopping the run;
- the pure formatting: chart labels and bar order, numbered prompt lines, report table
  rows, line breaks in the analysis, the analysis fallback texts and the e-mail guard.

External effects are inputs. A `World` value records what the outside answers during one
run: the outcome of the HTTP request and JSON decoding, whether each file write
succeeds, whether matplotlib succeeds, the chat service's reply or error text, and how
the mail client behaves. It also holds the timestamp each stage reads. Each stage returns
what the Python returns and describes what it asked of the outside: the snapshot
document, the bars handed to `barh`, the chat request, the report body and the mail
client calls. `Run` also returns the list of stage calls with their arguments.

Files:
- `py.dfy` (module `Py`): Python semantics used by the source. Covers `None`,
  exceptions as `Result`, truthiness, `str.split`/`str.join`, `str.replace('\n', '<br>')`
  and `str(int)`.
- `values.dfy` (module `Values`): decoded JSON values, `dict.get` and `str()` of a value.
- `fetcher.dfy` (module `Fetcher`): the `get_baidu_hot` normalisation and the snapshot
  document.
- `formatting.dfy` (module `Formatting`): labels, reversal, prompt lines, table rows.
- `analyzer.dfy` (module `Analyzer`): the class, its constructor, its stages and `Run`.

In these places the code does something a reader might not expect; the model follows
the code:
- Each stage calls `datetime.now()` itself, so the snapshot, chart and report file names
  carry three separate timestamps.
- `yag.close()` is not in a `finally`. When sending raises, the connection is not closed.
- A title that is not a string makes `len(title)` raise in `generate_visualization`. The
  exception is not caught, so it ends the run; it is not a non-fatal chart failure.
- The loop appends a record for every provider item before cutting the list to ten. So
  an item that is not a dictionary anywhere in the list, even after the tenth, empties
  the result.
- `run` returns nothing in every case. `RunResult` only makes the terminal state
  observable.
- Titles and URLs are put into the report without HTML escaping. The model does not
  claim escaping.

## Model

| member | source | states |
|---|---|---|
| `Py.Split` | hot_topics_analyzer.py:47 | `split(",")` gives one more part than there are commas, and no part holds a comma, so the recipient list is never empty |
| `Py.JoinOfSplit` | hot_topics_analyzer.py:47 | joining the split recipient parts with the separator gives back the configured string |
| `Py.ReplaceNewlines` | hot_topics_analyzer.py:194 | the analysis HTML holds no newline, is 3 characters longer per newline, and a text without newlines is returned unchanged |
| `Py.RestoreReplaced` | hot_topics_analyzer.py:194 | turning `<br>` back into newlines recovers the analysis text, provided it had no `<br>` of its own |
| `Values.Text` | hot_topics_analyzer.py:113 | `str()` of a field inside an f-string: a missing or null field prints `None`, a string prints itself, an integer prints its decimal (`Py.Decimal`), a boolean prints `True` or `False`, and no value other than a string prints a newline |
| `Py.NaturalDecimal` | hot_topics_analyzer.py:113 | `str(n)` of a natural number is a digit string that denotes n (`DigitsValue`) and starts with `0` only when it is `"0"` |
| `Py.Decimal` | hot_topics_analyzer.py:113 | `str(int)`, as printed for ranks and scores: the decimal digits of the number, denoting its value (with `Py.NaturalDecimal`: no leading zero), after a `-` exactly when it is negative, never holding a newline |
| `Values.Get` | hot_topics_analyzer.py:83-85 | `item.get(k)` is None exactly when the key is missing or holds null, and otherwise the stored value |
| `Fetcher.ContentField` | hot_topics_analyzer.py:81 | the `.get` chain succeeds exactly when the body is a dictionary, a present `data` is a dictionary, and a present `cards` is a non-empty list whose first card is a dictionary; otherwise it raises. A missing `data` or `cards` level, or a first card without `content`, gives the empty list; a well-formed chain gives the first card's `content` |
| `Fetcher.Iterate` | hot_topics_analyzer.py:81 | a `for` loop over a list visits its items; only an empty string or dictionary also yields nothing without raising; every other value makes the loop raise |
| `Fetcher.ToTopic` | hot_topics_analyzer.py:82-86 | each record field is Some exactly when the item's `word`, `url` or `hotScore` key is present and not null, and then holds that value; no field holds null |
| `Fetcher.Take` | hot_topics_analyzer.py:90 | `[:10]` keeps min(N,10) elements, each equal to the element at the same position |
| `Fetcher.FetchTopics` | hot_topics_analyzer.py:80-94 | the fetch returns at most 10 topics, and no field of them holds a JSON null |
| `Fetcher.FetchAllOrNothing` | hot_topics_analyzer.py:75-94 | topics come back exactly when request, decoding and list lookup succeed, the list is non-empty and every item is a dictionary; otherwise the result is `[]`, never a partial list |
| `Fetcher.FetchKeepsFirstTen` | hot_topics_analyzer.py:81-90 | a successful fetch keeps the first min(N,10) items in provider order, with `word`→title, `url`→url, `hotScore`→hot_score |
| `Fetcher.MalformedItemDiscardsAll` | hot_topics_analyzer.py:81-90 | one non-dictionary item at any position, even after the tenth, makes the fetch return `[]` |
| `Fetcher.SnapshotRoundTrip` | hot_topics_analyzer.py:101-102 | the snapshot document read back gives the same topics, field for field |
| `Formatting.ShortLabel` | hot_topics_analyzer.py:158 | a title over 10 characters becomes its first 10 characters plus `...` (length 13); a shorter one is unchanged |
| `Formatting.ShortLabelIdempotent` | hot_topics_analyzer.py:158 | shortening a label again changes nothing |
| `Formatting.Labels` | hot_topics_analyzer.py:154-158 | labels are produced exactly when every title is a string; then there is one per topic, in order, each the shortened title |
| `Formatting.Reverse` | hot_topics_analyzer.py:162 | `[::-1]` keeps the length, and element i is element n-1-i of the input |
| `Formatting.ReverseInvolution` | hot_topics_analyzer.py:162 | reversing twice gives back the list |
| `Formatting.ChartBars` | hot_topics_analyzer.py:154-162 | labels and scores (`Scores`, line 155) are reversed together: bar i shows the label and score of topic n-1-i |
| `Formatting.TopRankDrawnAtTop` | hot_topics_analyzer.py:162 | the rank-1 topic is the last bar, drawn at the top; the last-ranked topic is the first bar |
| `Formatting.TopicsTextLines` | hot_topics_analyzer.py:113-114 | when no title or score prints a newline, the prompt's topic list (`TopicsText`, the `"\n".join` of `Py.Join` over the prompt lines) splits into exactly n lines, line i being `"{i+1}. title (热度: score)"` |
| `Formatting.PromptLine` | hot_topics_analyzer.py:113 | a prompt line starts with the rank and `". "`, and holds no newline when neither title nor score prints one |
| `Formatting.TableRowAt` | hot_topics_analyzer.py:184-191 | row i (`Row`: numbered i+1 with topic i's url, title and score, in the f-string's exact whitespace) follows the rows of all earlier topics and precedes those of later ones |
| `Formatting.TableAppend` | hot_topics_analyzer.py:184-191 | `topics_html +=` adds the new topic's row after the existing ones |
| `Formatting.TablePrefixStep` | hot_topics_analyzer.py:184-191 | one turn of the loop: the table of the first i+1 topics is the table of the first i followed by row i+1 |
| `Analyzer.RecipientCheckNeverSkips` | hot_topics_analyzer.py:260-262 | since `"".split(",")` is `[""]`, the recipient part of the guard (`EmailConfigured`) never triggers the skip; only user and password decide |
| `Analyzer.HotTopicsAnalyzer.constructor` | hot_topics_analyzer.py:37-66 | the fields are the environment values; recipients are the comma split of `EMAIL_RECIPIENTS` (default `""`); a client exists exactly when the API key is truthy |
| `Analyzer.HotTopicsAnalyzer.GetBaiduHot` | hot_topics_analyzer.py:75-94 | the loop that appends one record per item, then truncates, returns exactly the fetch result |
| `Analyzer.HotTopicsAnalyzer.SaveHotTopics` | hot_topics_analyzer.py:96-105 | the written document reads back as the topics; the path is returned, or the write's exception |
| `Analyzer.HotTopicsAnalyzer.GenerateVisualization` | hot_topics_analyzer.py:148-174 | no topics gives None without plotting; otherwise the reversed bars are plotted and the chart path is returned exactly when every title is a string and rendering succeeds |
| `Analyzer.HotTopicsAnalyzer.AnalyzeWithAi` | hot_topics_analyzer.py:107-146 | without a client: the disabled message and no request; with one: a request carrying the numbered topic list, and then the service's text or `"AI分析过程中出现错误: "` followed by the error |
| `Analyzer.HotTopicsAnalyzer.CreateReport` | hot_topics_analyzer.py:176-256 | the table is one row per topic in order, the analysis has `<br>` for every newline, the chart is embedded exactly when a path was given and the file exists, and the path is returned or the write raises |
| `Analyzer.HotTopicsAnalyzer.MailContents` | hot_topics_analyzer.py:272-280 | the message is greeting, text and report file, followed by the chart path exactly when it is truthy |
| `Analyzer.HotTopicsAnalyzer.SendEmail` | hot_topics_analyzer.py:258-291 | not configured (`EmailConfigured`, line 260): False and no mail calls; otherwise exactly connect, then (unless connecting raised) one send to all recipients of `MailContents`, then (unless sending raised) close; True exactly when all three succeed; no close after a failed send |
| `Analyzer.HotTopicsAnalyzer.SendEmailIsOneSession` | hot_topics_analyzer.py:266-283 | whatever the mail client answers, a configured send makes its calls as one ordered session: connect, at most one send, a close only after the send |
| `Analyzer.HotTopicsAnalyzer.Run` | hot_topics_analyzer.py:293-317 | aborts after `[fetch]` exactly when the fetch is empty; otherwise calls save, visualize, analyze, create_report and send_email once each in that order, passing the chart path and analysis text on unchanged; ends early only on an uncaught save, chart or report exception |

## Left out

- The HTTP request, its `User-Agent` header, `raise_for_status` and `response.json()`
  are network I/O. Their combined outcome is the `World.response` input.
- `datetime.now()`, the file writes and `os.path.exists` touch the clock and the
  filesystem. They are inputs: timestamps, write outcomes and `chartOnDisk`.
- The constructor's creation of the data and report directories (`os.makedirs`,
  hot_topics_analyzer.py:54-56) is not modelled. The directories are taken to exist, and
  a `makedirs` that raises is not captured.
- The chart file read in `create_report` (hot_topics_analyzer.py:199) is not modelled.
  A file that exists is taken to be readable, so a read that raises after
  `os.path.exists` succeeds, and would end the run, is not captured.
- The JSON text written by `json.dump` (`ensure_ascii`, `indent`) is not modelled. The
  model works with the document value.
- matplotlib is left out: figure size, colour, title, fonts, DPI and global `rcParams`.
  Only the labels and scores handed to `barh`, and whether rendering and `savefig` raise,
  are modelled. How null scores are drawn is not modelled.
- The chat-completion client is a foreign call. Only its content or its error text is
  modelled. The fixed prompt template around the topic list is not reproduced; the
  request records the model, the system role and the topic list.
- A completion whose content is None is not modelled. In the source it would make
  `analysis.replace` raise.
- The base64 encoding of the chart file's bytes is a library call on file contents. The
  report body records only whether the chart is embedded.
- The HTML template's fixed text and CSS, the report date, the mail subject with its
  date, `load_dotenv` and all `print` logging are fixed strings, configuration or output.
  They are not modelled.
- The SMTP transport is a foreign client. Which of connect, send and close raises is the
  `World.mail` input.
- JSON numbers are integers. Floating-point scores and their `str()` are not modelled.
- `Values.Text`: Python's `str()` of a list- or object-valued field (its repr) is not
  modelled. It renders as the placeholder `[...]` or `{...}`. The provider sends strings
  and numbers for these fields.
- `Formatting.Labels`: a list- or object-valued title of at most 10 elements does not
  raise at `len()` in Python. The model treats every non-string title as raising.
- JSON objects are maps, so duplicate keys in the provider's body are not modelled.
