# Storage console dispatch, in Dafny

A model of the command dispatch of the Cloud Storage sample console
application, `storage/storage.php`. The application registers eleven
commands (bucket-acl, bucket-default-acl, bucket-labels, buckets,
encryption, iam, object-acl, objects, requester-pays,
enable-default-kms-key and upload-with-kms-key). Each one's handler reads
its parsed arguments and options and does one of three things:

- calls exactly one downstream storage operation;
- throws a validation error before any call;
- in one requester-pays case, does nothing.

The model is pure, as the handlers are. A command is a `StorageCli.Command` value:

- required arguments are `string`;
- optional arguments and value-taking options are `Option<string>`, where `None` is PHP's null;
- `VALUE_NONE` flags are `bool`.

`StorageCli.Dispatch` maps a command to an `Outcome`: `Call(action)`, `Error(msg)` or `NoOp`.

The branches test PHP truthiness (`PhpValues.Truthy`: false for null, "" and "0"). The one `is_null` test, for the encryption key, is `PhpValues.IsNull`, so `--key ""` passes it.

The downstream operations (`add_bucket_acl`, `move_object`, …) are opaque tags in `StorageActions.Action`. The outer constructor names the command family and the inner one the operation. Together they name one downstream function, and their fields are its arguments in order.

Files:

- `php_values.dfy`: PHP null, truthiness, `is_null`, option defaults.
- `precedence.dfy`: `FirstSet`, an independent definition of an `if / elseif` chain's choice.
- `storage_actions.dfy`: the downstream operations, which command owns each, and which calls a handler can make at all (`Admissible`).
- `storage_cli.dfy`: commands, outcomes, the eleven handlers and `Dispatch`.
- `storage_cli_properties.dfy`: round trips, the exact set of reachable calls, and precedence.

## Model

| member | source | states |
|---|---|---|
| Precedence.FirstSet | storage/storage.php:47-57 | the index of the first true condition of an if/elseif chain: all earlier ones are false and it is true, or none is true and the else branch is taken |
| StorageCli.SelectAclOp | storage/storage.php:40-57 | ACL commands: no truthy --entity reads the whole ACL whatever --create/--delete say; with an entity, --create wins over --delete, neither reads the entity's entry; the entity passes through; a created entry gets --role, "READER" when absent |
| StorageCli.HandleBucketAcl | storage/storage.php:43-58 | never errors; calls the bucket ACL operation chosen by `SelectAclOp` on the given bucket; the call is admissible and belongs to bucket-acl |
| StorageCli.HandleBucketDefaultAcl | storage/storage.php:72-90 | never errors; calls the default-ACL operation chosen by `SelectAclOp` on the given bucket |
| StorageCli.HandleBucketLabels | storage/storage.php:106-120 | no truthy label lists labels; errors, with the source's message, exactly when a truthy label has neither a truthy --value nor --remove; --value wins over --remove; label and value pass through |
| StorageCli.HandleBuckets | storage/storage.php:135-147 | no truthy bucket lists buckets whatever the flags; errors, with the source's message, exactly when a bucket has neither --create nor --delete; --create wins over --delete |
| StorageCli.HandleEncryption | storage/storage.php:166-190 | --generate-key alone decides and never errors; otherwise a missing bucket or object is the "bucket and object" error; --upload-from, then --download-to, then --rotate-key; rotation errors exactly when --key is null, not merely falsy; upload and download pass the key through as given, null included |
| StorageCli.HandleIam | storage/storage.php:209-227 | neither member option views members; --add-member wins over --remove-member; either one without a truthy --role is the role error, before any call; role and member pass through |
| StorageCli.HandleObjectAcl | storage/storage.php:241-260 | never errors; calls the object ACL operation chosen by `SelectAclOp` on the given bucket and object |
| StorageCli.SelectObjectOp | storage/storage.php:283-297 | with an object: --upload-from, then --download-to, then --move-to, then --copy-to, then --make-public, then --delete, then metadata, each as an if-and-only-if; move and copy keep the source bucket as destination; values pass through |
| StorageCli.HandleObjects | storage/storage.php:280-305 | never errors; a truthy object applies `SelectObjectOp`; no object lists by a truthy --prefix, otherwise lists all |
| StorageCli.HandleRequesterPays | storage/storage.php:323-337 | never errors; no-op exactly for an object without a truthy destination, or no object and no flag; an object with a destination downloads it billed to the project |
| StorageCli.RegisteredDownloadTo | storage/storage.php:319 | as registered, download-to is never null: an absent one reads as the text "Path to store the dowloaded file" |
| StorageCli.HandleEnableDefaultKmsKey | storage/storage.php:351-356 | always exactly one call, with project, bucket and key name passed through in order |
| StorageCli.HandleUploadWithKmsKey | storage/storage.php:372-379 | always exactly one call, with all five arguments passed through in order |
| StorageCli.Dispatch | storage/storage.php:29-379 | a command errors exactly when the validation rules (`Rejected`) refuse it, does nothing exactly in the idle requester-pays cases (`Idle`), and otherwise makes one admissible call owned by that command |
| StorageCliProperties.AclRoundTrip | storage/storage.php:47-57 | the ACL choice is inverted by the options `Invocation` picks: every admissible ACL operation is selected by its own options |
| StorageCliProperties.InvocationRoundTrip | storage/storage.php:29-379 | every admissible call is made by running its canonical command line, under that command's name |
| StorageCliProperties.CallsAreExactlyAdmissible | storage/storage.php:29-379 | the calls some command line can make are exactly the admissible ones (both directions) |
| StorageCliProperties.AclPrecedence | storage/storage.php:47-54 | with an entity, the ACL choice is the first of create, delete, read-entry selected by `FirstSet` over [--create, --delete] |
| StorageCliProperties.BucketLabelsPrecedence | storage/storage.php:108-116 | with a label, the outcome is the first of add, remove, error selected by `FirstSet` over [truthy --value, --remove] |
| StorageCliProperties.BucketsPrecedence | storage/storage.php:136-143 | with a bucket, the outcome is the first of create, delete, error selected by `FirstSet` over [--create, --delete] |
| StorageCliProperties.EncryptionPrecedence | storage/storage.php:173-185 | with bucket and object and no --generate-key, the outcome is the first of upload, download, rotate (or the null-key error), the action error, selected by `FirstSet` |
| StorageCliProperties.IamPrecedence | storage/storage.php:214-226 | the outcome is the first of add, remove (each the role error without a role), view, selected by `FirstSet` over the two member options |
| StorageCliProperties.RequesterPaysPrecedence | storage/storage.php:330-336 | without an object, the outcome is the first of enable, disable, status, no-op selected by `FirstSet` over the three flags |
| StorageCliProperties.RequesterPaysObjectIgnoresFlags | storage/storage.php:326-330 | with an object, --enable, --disable and --check-status do not change the outcome |
| StorageCliProperties.ObjectWithoutDestinationIsIdle | storage/storage.php:326-329 | with download-to read as optional, an object without a destination is a no-op whatever the flags |
| StorageCliProperties.RegisteredDefaultDownloads | storage/storage.php:319-329 | with download-to as registered, the same command line instead downloads the object to a file named after the help text |

## Left out

- `speech/src/transcribe_auto_punctuation.php` is not part of this model. It only reads a file, builds SDK requests, calls the remote recognizer and prints results.
- The downstream operations' bodies are not modelled. They live in files not part of this model and only call the cloud SDK, so they are opaque tags.
- Symfony Console parsing, help text, command registration and `run()` / the test hook are not modelled.
  - Option defaults are the one exception: `--role`'s "READER" is modelled, and so is the registered default of requester-pays' download-to (see Findings).
  - `Command` holds the values as parsed, with `None` for an absent optional value.
- Exception classes are not modelled. Every throw is an `Error` carrying the source's message.
  - The iam command throws an unqualified `InvalidArgumentException` inside the application's namespace. That class does not exist there, so PHP fails with a class-not-found error instead of this message. It still fails before any call, which is what the model keeps.
- Output printing and the exit status are not modelled.
- `StorageCli.Dispatch` reads requester-pays' download-to as an optional argument without a default. This is what the handler's own test for it expects. The registration as written differs (see Findings).

## Findings

| source | as written | input that shows it | evidently intended | confidence | as-written member | corrected member |
|---|---|---|---|---|---|---|
| storage/storage.php:319 | `addArgument('download-to', null, InputArgument::OPTIONAL, 'Path to store the dowloaded file')` passes the mode as null, the mode constant as the description and the description as the default, so an absent download-to reads as "Path to store the dowloaded file" | `requester-pays my-project my-bucket my-object` with no download-to: downloads the object to a local file named "Path to store the dowloaded file" instead of doing nothing | an optional argument without a default, so that the handler's test at :327 skips the download | high; not executed | StorageCli.RegisteredDownloadTo, StorageCliProperties.RegisteredDefaultDownloads | StorageCli.Dispatch, StorageCliProperties.ObjectWithoutDestinationIsIdle |
