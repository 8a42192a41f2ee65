# Itamae backend: pre-transfer validation, SSH option resolution, sudo policy

A Dafny model of the part of Itamae's backend layer that is fixed by
`spec/unit/lib/itamae/backend_spec.rb`:

- `Itamae::Backend::Base#send_file` / `#send_directory` (module `Backend`,
  `backend.dfy`): the local source path is checked for existence, then for
  its kind; a refusal is a `SourceNotExistError` whose message names the
  path, and otherwise the concrete backend's transfer primitive runs and its
  report (`Delivered` or `TransportFailed`) is passed through unchanged. The
  primitive's report type has no `SourceNotExist` case, so only the check can
  raise that error. The local filesystem is a map from
  path to `Kind` (absent key = path does not exist). The primitive is a
  function parameter. `ParseMessage` reads a message back into the refusal
  it reports and is the partner of `Message`: the two round-trip. So a
  message alone tells which operation was refused, which check failed and
  for which path.
- `Itamae::Backend::Ssh#ssh_options` (module `Ssh`, `ssh.dfy`): for a backend
  created with `{host: h}`, the configuration's entries for `h` are merged
  over `{host_name: nil}`. `user` defaults to the login name when the
  configuration gives no truthy user, and `host_name` is then forced to `h`.
  `Net::SSH::Config.for` is a parameter of type `string -> Options`.
  `Etc.getlogin` is an `Option<string>` parameter (Ruby's `getlogin` may
  return `nil`). The test's expected value, built by updating a hash step by
  step, is the method `DefaultOption`.
- `Itamae::Backend::Ssh#disable_sudo?`: the negation of the `sudo` option.

The two success contexts of the test (lines 29-33 and 48-52) write
`expect { subject }.not_to raise_error` with a lambda as `subject`. That block
only evaluates the lambda and never calls it, so as written those contexts do
not run `send_file` or `send_directory` at all (not executed; read from the
text). That a valid source reaches the primitive without an error is therefore
modelled from the evident intent of those contexts and of the backend's design,
not from what the test asserts.

Ruby values in option hashes are the datatype `Ssh.Value`. Ruby truthiness
(`nil` and `false` are false) is modelled explicitly for `opts[:user] || Etc.getlogin`.

## Model

| member | source | states |
|---|---|---|
| Backend.SendFile | spec/unit/lib/itamae/backend_spec.rb:17-34 | fails with `SourceNotExist` iff the source is not an existing regular file; absent source: fails with "The file '<src>' doesn't exist."; present but not a regular file: fails with "'<src>' is not a file."; regular file: the result is the primitive's own report |
| Backend.SendDirectory | spec/unit/lib/itamae/backend_spec.rb:36-53 | fails with `SourceNotExist` iff the source is not an existing directory; absent source: fails with "The directory '<src>' doesn't exist."; present but not a directory: fails with "'<src>' is not a directory."; directory: the result is the primitive's own report |
| Backend.CheckSource | spec/unit/lib/itamae/backend_spec.rb:18-26 | the shared check lets a call through iff the path exists with the expected kind; a refusal names the operation and the path, and is "missing" exactly when the path is absent (existence is decided before kind) |
| Backend.Send | spec/unit/lib/itamae/backend_spec.rb:17-53 | for either operation: a source present with the expected kind yields exactly the primitive's report for (src, dst); an absent source yields the "missing" message; a present source of another kind yields the "wrong kind" message |
| Backend.Message | spec/unit/lib/itamae/backend_spec.rb:20-45 | the four message texts of lines 20, 26, 39 and 45, each embedding the path (definition; its partner is `ParseMessage`) |
| Backend.Stub | spec/unit/lib/itamae/backend_spec.rb:10-14 | the test backend's stubbed `send_file` / `send_directory`, which report nothing and raise nothing (definition) |
| Backend.ParseMessageOfMessage | spec/unit/lib/itamae/backend_spec.rb:20-45 | every refusal message parses back to the refusal it was built from |
| Backend.ParseMessage | spec/unit/lib/itamae/backend_spec.rb:20-45 | whatever a message parses to, formats back to that same message |
| Backend.MessageInjective | spec/unit/lib/itamae/backend_spec.rb:20-45 | two refusals have the same message iff they are the same refusal (operation, failed check, path) |
| Backend.RefusalMessageNamesCause | spec/unit/lib/itamae/backend_spec.rb:18-26 | a refused transfer fails with `SourceNotExist`, and its message reads as "missing" for an absent path and "wrong kind" for a present one, never the other way round |
| Backend.RefusalIgnoresPrimitive | spec/unit/lib/itamae/backend_spec.rb:10-14 | a refused transfer does not depend on the primitive or on the destination: nothing is transferred before the source is valid |
| Backend.SendFileExamples | spec/unit/lib/itamae/backend_spec.rb:17-34 | the three `send_file` contexts with the test's stubbed primitive: the two exact messages, and the stub's report for a regular file |
| Backend.SendDirectoryExamples | spec/unit/lib/itamae/backend_spec.rb:36-53 | the three `send_directory` contexts with the test's stubbed primitive |
| Ssh.SshOptions | spec/unit/lib/itamae/backend_spec.rb:63-73 | the result's keys are the configuration's keys plus `host_name` and `user`; `host_name` is the host; `user` is the configuration's truthy user, else the login name; every other configuration entry is kept unchanged |
| Ssh.DefaultOption | spec/unit/lib/itamae/backend_spec.rb:63-69 | the hash built in place holds every configuration entry other than `user`, the configuration's `host_name` or `nil`, and the defaulted `user`; merging `{host_name: host}` into it gives exactly `SshOptions` (the assertion at line 73) |
| Ssh.SshOptionsReadsOnlyOwnHost | spec/unit/lib/itamae/backend_spec.rb:66 | the resolved options depend on the configuration only through its entry for the backend's host |
| Ssh.SshOptionsExample | spec/unit/lib/itamae/backend_spec.rb:71-74 | with `{host: "example.com"}`, for any configuration and login, the result has `host_name` "example.com" and a `user` key |
| Ssh.Truthy | spec/unit/lib/itamae/backend_spec.rb:67 | Ruby truthiness, as used by `||`: every value but `nil` and `false` is true (definition) |
| Ssh.Get | spec/unit/lib/itamae/backend_spec.rb:67 | `Hash#[]` in `opts[:user]`: the stored value, or `nil` for a missing key (definition) |
| Ssh.LoginValue | spec/unit/lib/itamae/backend_spec.rb:67 | the value of `Etc.getlogin`: the login name as a string, or `nil` when there is none (definition) |
| Ssh.Or | spec/unit/lib/itamae/backend_spec.rb:67 | Ruby's `||`: the left value when truthy, else the right one |
| Ssh.DisableSudo | spec/unit/lib/itamae/backend_spec.rb:77-91 | true iff the `sudo` option is `false`, i.e. the negation of the option's truthiness |
| Ssh.DisableSudoReadsOnlySudo | spec/unit/lib/itamae/backend_spec.rb:77-91 | the policy depends on no option but `sudo` |
| Ssh.DisableSudoExamples | spec/unit/lib/itamae/backend_spec.rb:82-90 | `{sudo: true}` gives false and `{sudo: false}` gives true |

## Left out

- The real local filesystem (and the FakeFS stand-in of the tests): replaced by an input map from path to kind. Symbolic links are taken as already followed; `Special` stands for any present path that is neither a regular file nor a directory.
- The transfer primitives and the inner backend object: a function parameter reporting `Delivered` or `TransportFailed`; how they transfer bytes is outside the model.
- `run_command`, connection setup and teardown, and transport failures: network I/O, and nothing about them is fixed here.
- `Net::SSH::Config.for` and `Etc.getlogin`: foreign library and OS calls, modelled as parameters.
- Ssh.SshOptions: covers a backend created with the `host` option alone; how other invocation options (`user`, `port`, keys, ...) override configuration entries, and what happens without a `host` option, are not fixed by the test and are not modelled.
- Ssh.DisableSudo: requires the `sudo` option to be a boolean; its value when `sudo` is unset or non-boolean is not fixed by the test and is not modelled.
- Caching of the resolved options for the lifetime of a backend instance: the result is a pure function of its inputs, so caching changes nothing observable in the model.
- The local backend and the dispatch across backend kinds: not part of this model.
