# Simple Storage client and filesystem adapter, modelled in Dafny

This project models the PHP package `laravel-simple-storage-client`, a client for a small remote file-storage service. It has four parts:

- **`SimpleStorageClient`**: turns every HTTP exchange with the server into one of three results: a value, a `SimpleStorageException`, or a collapsed boolean (`exists`, `isHealthy`). It builds the requests: paths, the `?keep=true` flag, and when the bearer token is attached. Its only mutable state is the base URL and the API key.
- **`SimpleStorageAdapter`**: makes the flat, id-keyed store look like a hierarchical filesystem (Flysystem's `FilesystemAdapter`).
  - Paths are job ids, and directories are prefixes of the full listing.
  - Copy is read-then-write, and move is copy-then-delete.
  - Metadata is found by a linear search of the listing.
  - Visibility and MIME type are unsupported stubs.
  - Every client error is rewrapped into a Flysystem error.
- **The exception taxonomy**: the static factories of `SimpleStorageException` and its four subclasses.
- **The value objects** `FileInfo`, `UploadResult` and `HealthStatus`: defaulting `fromArray` parsers, `toArray` serialisers and boolean predicates.

Modules, one file each:

| file | module | contents |
|---|---|---|
| `wrappers.dfy` | `Wrappers` | `Option`, `Result` |
| `php.dfy` | `Php` | decoded JSON values, `??`, `(int)`/`(bool)` casts, truthiness, string interpolation, `rtrim`/`trim`/`str_starts_with` on `/` |
| `http.dfy` | `Http` | requests, responses, the `Outcome` of one exchange, and a scripted `Transport` object |
| `exceptions.dfy` | `Exceptions` | `StorageException`, its factories and subclasses |
| `dtos.dfy` | `DataTransferObjects` | the three value objects |
| `client.dfy` | `Client` | the client: pure per-operation reply functions and the `SimpleStorageClient` class |
| `adapter.dfy` | `Adapter` | the adapter: pure reply functions, listing/deletion helpers and the `SimpleStorageAdapter` class |

How the model is shaped:

- **The network is an input.** One HTTP exchange is an `Outcome`: either a connection failure (Laravel's `ConnectionException`) or a response with a status, a decoded JSON body and raw bytes.
- **Each operation has two forms.** A pure function `XReply(connection, arguments, outcome)` says what the code makes of one outcome. A method of the class builds the request, passes it to `Transport.Send`, and is proved to return exactly `XReply` of the reply it got.
- **The transport is a script.** `Transport` holds the replies the server will give, in order, and logs every request sent. An exhausted script answers with a connection failure.
- **Multi-request operations are tied to the script.** Copy, move and deleteDirectory are proved against the replies they consume and the exact list of requests they send.
- **Two kinds of failure are kept apart.** A `TypeError` that PHP's `strict_types` raises (for example a non-string `job_id` reaching a `string` property) is kept separate from a `SimpleStorageException`. The `catch (SimpleStorageException)` blocks of `exists`, `isHealthy` and the adapter therefore do not swallow it (`Failure = Storage | Fault`, `AdapterFailure = Fs | Escaped`).

Where the code and its documentation or tests disagree, the model follows the code:

- `exists` is implemented through `list()`, and it turns every storage error into `false`, connection failures included. The unit test instead expects a `/check/{id}` endpoint and a `cleanup()` method, and `ConnectionFailedException`'s doc comment says such errors must not be swallowed there.
- The client always throws the base `SimpleStorageException`, built by the factories. The four subclasses are never thrown by the client; the model proves each of them equal to its factory in everything but the class.
- `download` maps a 401 to the generic "Download failed" error, not to `unauthorized()`.
- The API key `"0"` is falsy in PHP, so, like the empty key, it attaches no bearer token.
- The constructor assigns the settings to typed properties under strict types. The application configuration reads them from the environment, where a number is text, so a numeric setting set there makes construction raise a TypeError.

## Model

| member | source | states |
|---|---|---|
| Php.Lookup | src/DataTransferObjects/UploadResult.php:25-28 | `$data[key] ?? d` falls back exactly when the key is absent or null; otherwise it yields the stored value |
| Php.Interpolate | src/Exceptions/SimpleStorageException.php:45 | interpolating a string gives the string itself; interpolating an integer gives a decimal text that `(int)` casts back to the same integer |
| Php.StrToIntOfIntToString | src/DataTransferObjects/UploadResult.php:27 | the `(int)` cast of the decimal rendering of any integer, negative ones included, is that integer |
| Php.RTrimSlashes | src/SimpleStorageClient.php:39 | `rtrim($s, '/')` is a prefix of `s` that does not end in '/', and what it removed is all slashes |
| Php.RTrimSlashesIdempotent | src/SimpleStorageClient.php:258 | trimming an already trimmed base URL changes nothing |
| Php.LTrimSlashes | src/SimpleStorageAdapter.php:258 | `ltrim($s, '/')` is a suffix of `s` that does not start with '/', and what it removed is all slashes |
| Php.TrimSlashes | src/SimpleStorageAdapter.php:258 | `trim($path, '/')` is a middle slice of the path with only slashes cut off on either side, starts and ends with no slash, and leaves a path with no slash at either end unchanged |
| Php.ToBool | src/DataTransferObjects/FileInfo.php:32 | the `(bool)` cast is false exactly for null, false, 0, "", "0", the empty list and the empty object |
| Php.ToInt | src/DataTransferObjects/FileInfo.php:29 | the `(int)` cast keeps an integer, gives 1 or 0 for other non-string values according to their truthiness, and gives 0 for "" and "0" |
| Php.BaseName | src/SimpleStorageClient.php:121 | `basename` is the last slash-free component of the path once trailing slashes are ignored |
| Php.TrimSlashesEmpty | src/SimpleStorageAdapter.php:257-258 | the trimmed prefix is empty exactly when the path is made only of slashes |
| Exceptions.NewDefault | src/Exceptions/SimpleStorageException.php:20-28 | the default exception has message "Simple Storage operation failed", code 0, no previous exception and no response |
| Exceptions.FromResponse | src/Exceptions/SimpleStorageException.php:41-52 | with a truthy context the message is "context: " followed by the interpolated server error, or "Unknown error" when the body has none, whatever the error's type; with a falsy context it is the bare error text, and a non-string error is a TypeError; the code is the response status and the response is kept |
| Exceptions.ConnectionFailed | src/Exceptions/SimpleStorageException.php:57-64 | code 0; the message is "Failed to connect to Simple Storage Server at " followed by exactly the URL; the previous exception is kept |
| Exceptions.Unauthorized | src/Exceptions/SimpleStorageException.php:69-75 | code 401 and message "Invalid or missing API key" |
| Exceptions.NotFound | src/Exceptions/SimpleStorageException.php:80-86 | code 404; the message is "Job not found: " followed by exactly the job id |
| Exceptions.FileDeleted | src/Exceptions/SimpleStorageException.php:91-97 | code 410; the message is "File already deleted: " followed by exactly the job id |
| Exceptions.FileNotReadable | src/Exceptions/SimpleStorageException.php:102-108 | code 0; the message is "File not readable: " followed by exactly the path |
| Exceptions.FileNotWritable | src/Exceptions/SimpleStorageException.php:113-119 | code 0; the message is "Cannot write to path: " followed by exactly the path |
| Exceptions.JobIdRecoverable | src/Exceptions/SimpleStorageException.php:80-97 | the notFound and fileDeleted messages determine their job id, and a not-found error is never equal to a deleted-file error |
| Exceptions.NewConnectionFailedException | src/Exceptions/ConnectionFailedException.php:19-29 | records the target URL and the previous exception; code 0; the message embeds the URL |
| Exceptions.NewNotFoundException | src/Exceptions/NotFoundException.php:17-24 | records the job id; code 404; message "Job not found: " followed by the id |
| Exceptions.NewFileGoneException | src/Exceptions/FileGoneException.php:16-23 | records the job id; code 410; message "File already deleted: " followed by the id |
| Exceptions.NewUnauthorizedException | src/Exceptions/UnauthorizedException.php:12-18 | code 401, message "Invalid or missing API key", no previous exception |
| Exceptions.SubclassesMatchFactories | src/Exceptions/ConnectionFailedException.php:19-37 | each subclass agrees with its factory (connectionFailed, notFound, fileDeleted, unauthorized) on message, code, previous exception and response; getTargetUrl and getJobId return the constructor's argument |
| Exceptions.AbsenceIsDistinguishable | src/Exceptions/NotFoundException.php:8-13 | not-found and gone errors (codes 404/410) say the object is absent; connection and authentication errors do not |
| DataTransferObjects.StringField | src/DataTransferObjects/UploadResult.php:25-28 | a string field read with `??` yields its default when the key is absent or null, yields the stored string, and is a TypeError exactly when a non-string is stored |
| DataTransferObjects.HealthStatus.IsHealthy | src/DataTransferObjects/HealthStatus.php:33-36 | healthy exactly when the serialised status is "ok" |
| DataTransferObjects.HealthStatus.ToArray | src/DataTransferObjects/HealthStatus.php:41-48 | emits exactly the keys status, service, timestamp |
| DataTransferObjects.HealthStatusFromArray | src/DataTransferObjects/HealthStatus.php:21-28 | succeeds exactly when each of the three keys is absent, null or a string; status, service and timestamp are each the string read from the payload, or "unknown", "unknown" and the current time when absent or null; the result is healthy exactly when the payload's status is "ok" |
| DataTransferObjects.HealthStatusDefaults | src/DataTransferObjects/HealthStatus.php:21-36 | the empty array parses to status and service "unknown" at the current time, and that status is not healthy |
| DataTransferObjects.HealthStatusRoundTrip | src/DataTransferObjects/HealthStatus.php:21-48 | fromArray(toArray(h)) == h for every status, whatever the clock says |
| DataTransferObjects.UploadResult.IsSuccessful | src/DataTransferObjects/UploadResult.php:35-38 | successful exactly when the serialised status is "uploaded" |
| DataTransferObjects.UploadResult.ToArray | src/DataTransferObjects/UploadResult.php:43-51 | emits exactly the keys status, job_id, file_size, download_url |
| DataTransferObjects.UploadResultFromArray | src/DataTransferObjects/UploadResult.php:22-30 | succeeds exactly when status, job_id and download_url are each absent, null or a string; each of them is the string read from the payload, or "unknown", "" and "" when absent or null; the size is the `(int)` cast of file_size; the result is successful exactly when the payload's status is "uploaded" |
| DataTransferObjects.UploadResultDefaults | src/DataTransferObjects/UploadResult.php:22-38 | the empty array parses to ("unknown", "", 0, ""), which is not successful |
| DataTransferObjects.UploadResultRoundTrip | src/DataTransferObjects/UploadResult.php:22-51 | fromArray(toArray(r)) == r for every result |
| DataTransferObjects.UploadResultNumericStringSize | src/DataTransferObjects/UploadResult.php:27 | a file_size sent as the decimal string of n is read as n |
| DataTransferObjects.FileInfo.IsAvailable | src/DataTransferObjects/FileInfo.php:39-42 | available exactly when the serialised deleted flag is false |
| DataTransferObjects.FileInfo.HasBeenDownloaded | src/DataTransferObjects/FileInfo.php:47-50 | downloaded exactly when the serialised download time is not null |
| DataTransferObjects.FileInfo.ToArray | src/DataTransferObjects/FileInfo.php:55-64 | emits exactly the keys job_id, file_size, uploaded_at, downloaded_at, deleted |
| DataTransferObjects.MomentField | src/DataTransferObjects/FileInfo.php:30-31 | a timestamp is accepted exactly when it is a string (see Left out for integers) |
| DataTransferObjects.FileInfoFromArray | src/DataTransferObjects/FileInfo.php:25-34 | succeeds exactly when job_id, uploaded_at and downloaded_at are each absent, null or a string; the job id is the string read, or ""; the size is the `(int)` cast of file_size; deleted is the `(bool)` cast of deleted and the file is available exactly when that is false; the upload time is the one given, or the current time; the download time is the one given, and absent exactly when downloaded_at was not set |
| DataTransferObjects.FileInfoDefaults | src/DataTransferObjects/FileInfo.php:25-50 | the empty array parses to job id "", size 0, no download time, not deleted; that file is available and not downloaded |
| DataTransferObjects.FileInfoRoundTrip | src/DataTransferObjects/FileInfo.php:25-64 | job id, size, deleted flag and whether it was downloaded survive toArray then fromArray |
| Client.Resolve | src/SimpleStorageClient.php:39-45 | a setting is the given value unless it is absent or null, else the application's value when it has one (even null), else the default |
| Client.StringSetting | src/SimpleStorageClient.php:39-40 | a string setting is accepted exactly when it is a string |
| Client.IntSetting | src/SimpleStorageClient.php:41-44 | an int-typed property accepts exactly an integer, under strict types |
| Client.BoolSetting | src/SimpleStorageClient.php:45 | the bool-typed property accepts exactly a boolean, under strict types |
| Client.Configure | src/SimpleStorageClient.php:39-45 | succeeds exactly when every resolved setting has its property's type; each stored setting is then the resolved one (given, else application, else default), and the base URL is stored without its trailing slashes |
| Client.DefaultConfiguration | src/SimpleStorageClient.php:39-45 | with nothing configured, the settings are http://localhost:5000, "", 120, 10, 3, 500 and true |
| Client.TextualTimeoutFails | src/SimpleStorageClient.php:41 | a timeout that reaches the constructor as text, as an environment value does, makes construction raise a TypeError |
| Client.Bearer | src/SimpleStorageClient.php:60-62 | the token is attached exactly when authentication is asked for and the key is neither "" nor "0", and the token is the key |
| Client.AuthenticationOfRequests | src/SimpleStorageClient.php:51-62 | the health request never carries a token; upload, uploadContent, download, delete and list carry it exactly when the key is truthy |
| Client.DownloadPathShape | src/SimpleStorageClient.php:156 | the path is "/download/" + jobId, followed by "?keep=true" exactly when keep is set |
| Client.DownloadPathInjective | src/SimpleStorageClient.php:156 | for job ids without '?', the path determines both the job id and the keep flag |
| Client.HandleResponse | src/SimpleStorageClient.php:70-82 | a 2xx gives the decoded object, or an empty array for a null or list body, and any other body is a TypeError; 401 gives unauthorized(); every other status, 404 and 410 included, gives exactly fromResponse(response, context), so it carries the status, the response and the server's error text |
| Client.HealthReply | src/SimpleStorageClient.php:87-96 | a connection failure gives connectionFailed(baseUrl); 401 gives unauthorized(); any other non-2xx gives exactly fromResponse with "Health check failed"; a 2xx gives HealthStatus::fromArray of the decoded array, which is empty for a null body |
| Client.IsHealthyReply | src/SimpleStorageClient.php:101-108 | true exactly when health() succeeds with status "ok"; every storage error, a connection failure included, gives false; only a TypeError escapes |
| Client.UploadReply | src/SimpleStorageClient.php:113-128 | a missing or unreadable file gives fileNotReadable(path); otherwise it behaves as uploadContent with the file's bytes |
| Client.UploadContentReply | src/SimpleStorageClient.php:133-148 | a connection failure gives connectionFailed(baseUrl); 401 gives unauthorized(); any other non-2xx gives exactly fromResponse with "Upload failed"; a 2xx gives UploadResult::fromArray of the decoded array, which is empty for a null body |
| Client.DownloadReply | src/SimpleStorageClient.php:153-171 | succeeds exactly on a 2xx, with the body bytes verbatim; 404 gives notFound(jobId); 410 gives fileDeleted(jobId); any other status, 401 included, gives exactly fromResponse with "Download failed", carrying the status, the response and the server's error text; a connection failure gives connectionFailed(baseUrl) |
| Client.DeleteReply | src/SimpleStorageClient.php:196-213 | true exactly on a 2xx and never false; 404 gives notFound(jobId); other statuses give exactly fromResponse with "Delete failed", carrying the status, the response and the server's error text; a connection failure gives connectionFailed(baseUrl) |
| Client.FileEntries | src/SimpleStorageClient.php:238-239 | the "files" list maps element by element, in order and with the same length; it fails exactly when some element fails |
| Client.FilesOf | src/SimpleStorageClient.php:238 | a missing or null "files" key gives the empty listing; a list is mapped entry by entry |
| Client.ListReply | src/SimpleStorageClient.php:232-243 | a connection failure gives connectionFailed(baseUrl); 401 gives unauthorized(); any other non-2xx gives exactly fromResponse with "List failed"; a 2xx gives the "files" entries of the decoded array, so a null body gives the empty listing |
| Client.ContainsAvailable | src/SimpleStorageClient.php:223 | true exactly when some listed file has that job id and is not deleted |
| Client.ExistsReply | src/SimpleStorageClient.php:218-227 | true exactly when list() succeeds and contains an available file with that id; every storage error, connection failure and non-2xx included, gives false; only a TypeError escapes |
| Client.DeletedEntryDoesNotExist | src/SimpleStorageClient.php:218-227 | a job whose every listed entry is deleted does not exist |
| Client.SimpleStorageClient.Create | src/SimpleStorageClient.php:37-46 | construction succeeds exactly when Configure does, giving a fresh client whose settings are those Configure resolves, so the base URL has no trailing slash; otherwise it raises Configure's TypeError |
| Client.SimpleStorageClient.constructor | src/SimpleStorageClient.php:37-46 | a client holds the resolved settings it is given, whose base URL has no trailing slash |
| Http.Transport.Send | src/SimpleStorageClient.php:90 | each HTTP call appends its request to the log and is answered by the next scripted reply |
| Client.SimpleStorageClient.GetBaseUrl | src/SimpleStorageClient.php:248-251 | returns the stored base URL, which has no trailing slash |
| Client.SimpleStorageClient.SetBaseUrl | src/SimpleStorageClient.php:256-261 | stores rtrim(url, '/') and leaves the key and the transport options unchanged |
| Client.SimpleStorageClient.SetApiKey | src/SimpleStorageClient.php:266-271 | stores the key and changes nothing else |
| Client.SimpleStorageClient.Health | src/SimpleStorageClient.php:87-96 | sends one unauthenticated GET /health and returns HealthReply of the reply |
| Client.SimpleStorageClient.IsHealthy | src/SimpleStorageClient.php:101-108 | sends the health request and returns IsHealthyReply of the reply |
| Client.SimpleStorageClient.Upload | src/SimpleStorageClient.php:113-128 | sends nothing when the file is missing or unreadable; otherwise sends one multipart POST /upload with the job id and the file under its basename, and returns UploadReply |
| Client.SimpleStorageClient.UploadContent | src/SimpleStorageClient.php:133-148 | sends one POST /upload with an X-Job-Id header and an octet-stream body and returns UploadContentReply |
| Client.SimpleStorageClient.Download | src/SimpleStorageClient.php:153-171 | sends one GET of the download path for (jobId, keep) and returns DownloadReply |
| Client.SimpleStorageClient.Delete | src/SimpleStorageClient.php:196-213 | sends one DELETE /delete/{jobId} and returns DeleteReply |
| Client.SimpleStorageClient.List | src/SimpleStorageClient.php:232-243 | sends one GET /list and returns ListReply |
| Client.SimpleStorageClient.Exists | src/SimpleStorageClient.php:218-227 | sends one GET /list and returns ExistsReply |
| Adapter.FileExistsReply | src/SimpleStorageAdapter.php:39-46 | the answer is the client's exists(); since that never raises a storage error, UnableToCheckExistence never occurs |
| Adapter.WriteReply | src/SimpleStorageAdapter.php:71-78 | succeeds exactly when uploadContent(path, contents) succeeds, whatever the returned status says; a storage error becomes UnableToWriteFile(path, message, cause) |
| Adapter.ReadReply | src/SimpleStorageAdapter.php:97-104 | returns download(path)'s bytes unchanged; a storage error becomes UnableToReadFile(path, message, cause) |
| Adapter.DeleteFileReply | src/SimpleStorageAdapter.php:127-150 | succeeds exactly when the client's delete succeeds; every client error, a 404 included, becomes UnableToDeleteFile(path) with that error's message as reason and the error as cause |
| Adapter.FirstMatch | src/SimpleStorageAdapter.php:208 | finds the first listed file whose job id equals the path exactly, or reports that none does; the deleted flag is not looked at |
| Adapter.LastModifiedReply | src/SimpleStorageAdapter.php:204-224 | the first exact match gives (path, its size, no visibility, its upload time); no match gives "File not found." metadata error; a storage error becomes UnableToRetrieveMetadata with its message and cause |
| Adapter.FileSizeReply | src/SimpleStorageAdapter.php:229-247 | the first exact match gives (path, its size); no match gives "File not found." metadata error; a storage error becomes UnableToRetrieveMetadata with its message and cause |
| Adapter.Listed | src/SimpleStorageAdapter.php:260-279 | the generator yields at most one entry per listed file, each with a size and a last-modified time, no visibility, and a path that starts with the prefix |
| Adapter.ListedRoot | src/SimpleStorageAdapter.php:257-279 | with an empty prefix, one entry is yielded per listed file, in listing order |
| Adapter.ListedConcat | src/SimpleStorageAdapter.php:260-279 | listing order is kept: listing a concatenation lists each part in turn |
| Adapter.ListedMembers | src/SimpleStorageAdapter.php:258-279 | an entry is yielded exactly when it is (jobId, size, upload time) of a listed file whose job id starts with the trimmed prefix |
| Adapter.FilterListing | src/SimpleStorageAdapter.php:260-280 | the generator's loop yields exactly Listed(files, prefix) |
| Adapter.ListContentsReply | src/SimpleStorageAdapter.php:252-285 | a successful listing yields the files selected by trim(path, '/'); a storage error becomes UnableToListContents(path, deep, cause) |
| Adapter.ListingIgnoresDeep | src/SimpleStorageAdapter.php:252-285 | the deep flag never changes what is listed |
| Adapter.SlashPathListsAll | src/SimpleStorageAdapter.php:257-258 | a path made of slashes alone lists every file, one entry each |
| Adapter.CopyReply | src/SimpleStorageAdapter.php:303-311 | succeeds exactly when the read and then the write of what was read succeed; a filesystem failure of either becomes UnableToCopyFile(source, destination, inner), and a TypeError from either passes through unchanged |
| Adapter.CopyWritesWhatItRead | src/SimpleStorageAdapter.php:305-307 | copy downloads the source without keep, then uploads to the destination exactly the downloaded bytes; a failed read sends no upload |
| Adapter.MoveReply | src/SimpleStorageAdapter.php:290-298 | succeeds exactly when the copy and then the delete of the source succeed; a filesystem failure of either becomes UnableToMoveFile, and a TypeError from the copy passes through unchanged |
| Adapter.MoveKeepsCopyOnDeleteFailure | src/SimpleStorageAdapter.php:292-296 | when the copy succeeds but the delete fails, the destination upload was sent, the delete was attempted, and UnableToMoveFile wraps UnableToDeleteFile |
| Adapter.DeleteEach | src/SimpleStorageAdapter.php:159-163 | deletes run in listing order and stop at the first failure: every delete before it succeeded, and success means all were attempted |
| Adapter.DeleteEachFailure | src/SimpleStorageAdapter.php:159-163 | a run of deletes that fails reports the UnableToDeleteFile of the last path it tried |
| Adapter.DeleteDirectoryRun | src/SimpleStorageAdapter.php:155-167 | a failed listing deletes nothing; otherwise the deletes of the listed paths run as DeleteEach; a listing failure and the first delete failure are each wrapped in UnableToDeleteDirectory, while a TypeError passes through unchanged |
| Adapter.SimpleStorageAdapter.constructor | src/SimpleStorageAdapter.php:32-34 | keeps the client |
| Adapter.SimpleStorageAdapter.FileExists | src/SimpleStorageAdapter.php:39-46 | sends one GET /list and returns FileExistsReply |
| Adapter.SimpleStorageAdapter.DirectoryExists | src/SimpleStorageAdapter.php:51-66 | always false |
| Adapter.SimpleStorageAdapter.CreateDirectory | src/SimpleStorageAdapter.php:172-175 | succeeds and modifies nothing |
| Adapter.SimpleStorageAdapter.SetVisibility | src/SimpleStorageAdapter.php:180-183 | always fails with "Visibility not supported." and reads no state, so it cannot call the client |
| Adapter.SimpleStorageAdapter.Visibility | src/SimpleStorageAdapter.php:188-191 | always fails with a visibility metadata error and cannot call the client |
| Adapter.SimpleStorageAdapter.MimeType | src/SimpleStorageAdapter.php:196-199 | always fails with "MimeType not supported directly." and cannot call the client |
| Adapter.SimpleStorageAdapter.Write | src/SimpleStorageAdapter.php:71-78 | sends uploadContent with the path as job id and returns WriteReply |
| Adapter.SimpleStorageAdapter.Read | src/SimpleStorageAdapter.php:97-104 | sends a download of the path with keep false and returns ReadReply |
| Adapter.SimpleStorageAdapter.Delete | src/SimpleStorageAdapter.php:127-150 | sends DELETE /delete/{path} and returns DeleteFileReply |
| Adapter.SimpleStorageAdapter.LastModified | src/SimpleStorageAdapter.php:204-224 | sends one GET /list and returns LastModifiedReply |
| Adapter.SimpleStorageAdapter.FileSize | src/SimpleStorageAdapter.php:229-247 | sends one GET /list and returns FileSizeReply |
| Adapter.SimpleStorageAdapter.ListContents | src/SimpleStorageAdapter.php:252-285 | sends one GET /list and returns ListContentsReply |
| Adapter.SimpleStorageAdapter.Copy | src/SimpleStorageAdapter.php:303-311 | sends exactly CopyRequests, consumes one reply per request, and returns CopyReply |
| Adapter.SimpleStorageAdapter.Move | src/SimpleStorageAdapter.php:290-298 | sends exactly the copy's requests and then, if the copy succeeded, the delete; returns MoveReply |
| Adapter.SimpleStorageAdapter.DeleteEachPath | src/SimpleStorageAdapter.php:159-163 | the loop sends one delete per path, in order, up to and including the first failure, and its outcome is DeleteEach |
| Adapter.SimpleStorageAdapter.DeleteDirectory | src/SimpleStorageAdapter.php:155-167 | sends the deep listing and then the deletes DeleteDirectoryRun attempted, and returns its result |

## Left out

- Laravel's HTTP client is reduced to one `Outcome` per request. Left out: retry timing, timeouts, TLS verification and `acceptJson`. Also left out: `retry()` raising a `RequestException` on a final non-2xx response. The model assumes the response reaches the client's own status handling.
- An exhausted transport script answers with a connection failure. This convention belongs to the model, not to the source.
- `downloadTo` is left out because it is local disk I/O (directory creation and `file_put_contents`). `fileNotWritable`, the factory it uses, is modelled.
- The nested `retry` settings are flattened into two options. A `retry` entry that is not an array counts as absent, as `??` does in PHP.
- `upload` reads the local file. That read is reduced to a `LocalFile` input: missing, unreadable, or readable with its bytes.
- `writeStream` and `readStream` are left out because PHP stream resources are not modelled. They only wrap `write` and `read`.
- DataTransferObjects.MomentField: only a string timestamp is accepted. The date parser would also read an integer as Unix seconds, so a listing with integer timestamps parses in PHP but fails here with a TypeError; the model keeps timestamps as text and has no representation for such instants.
- Carbon date parsing and `now()` are not modelled. Timestamps stay as opaque ISO text (`Moment`), and the current time is a parameter. A string that Carbon cannot parse is not modelled as an error. `getTimestamp()` in the adapter is kept as the `Moment` itself.
- JSON floats are not modelled. Neither is `(int)` saturation at 64 bits, or the `(int)` cast of decimal and exponent strings such as "1.5" or "1e3": integers are unbounded, and a string is read as its leading digits.
- In `FilesOf`, a JSON object holding "files" is treated as a TypeError when nonempty. PHP would map its values.
- Interpolating a JSON array into a message is modelled as "Array". Laravel turns the "Array to string conversion" warning into an exception, and that is not modelled.
- A JSON list body is read as an array with no string keys.
- Adapter.ListContentsReply: the generator is modelled as run to completion. Laziness is not modelled, and neither is stopping the consumer part-way.
- Adapter.SimpleStorageAdapter.DeleteDirectory: the `instanceof FileAttributes` test is left implicit, because every yielded entry is a file.
- The `Config` arguments of write, copy, move and createDirectory are ignored by the source and left out.
- Flysystem's exceptions are kept as the arguments they are built from. Their message texts are left out.
- The service provider, facade, config file and the `SimpleStorageInterface` contract are wiring with no logic, and are left out.
- The classes are split between two PHP namespaces (`Dolphin\SimpleStorage` and `SimoneBianco\SimpleStorageClient`). The model wires them together as one package.
- The `/check/{id}` endpoint and `cleanup()`, which the tests expect, do not exist in the client and are not modelled.
- Exceptions.TargetUrl and Exceptions.JobId have no contract of their own. Exceptions.SubclassesMatchFactories states what they return.
