# MiniCluster spec builder of flux-burst-gke, in Dafny

The GKE plugin of the Flux bursting framework sends overflow jobs from a
running Flux instance (the *lead broker*) to a Google Kubernetes Engine
cluster. The Flux Operator there runs each job as a *MiniCluster*. A
MiniCluster is a custom resource whose workers join back to the lead broker.
The plugin's one piece of real logic is `get_minicluster`
(`fluxburst_gke/cluster.py`). It turns a command and about twenty optional
settings into two dictionaries: the MiniCluster spec and the container spec.
This project models that function and proves what its result looks like for
every input.

- `wrappers.dfy` (module `Wrappers`): `Option` and `Result`. A `Result` is the
  returned value or the exception raised.
- `pyint.dfy` (module `PyInt`): Python's `int(s)` on strings, and `str(n)`, its
  inverse. `int(s)` strips whitespace (tab, line feed, vertical tab, form
  feed, carriage return and space), then takes an optional sign, then
  decimal digits. Single underscores may separate digits, and leading zeros
  are allowed. Anything else raises `ValueError`.
- `pyvalue.dfy` (module `PyValue`): the Python objects that go in and come
  out. These are None, bool, int, str, list and string-keyed dict. The module
  also gives Python truthiness, `int(v)` (`TypeError` for None, lists and
  dicts), lookups that tell a missing key from a key holding None, and the
  nested assignments `m[k1][k2] = x` and `m[k1][k2][k3] = x`.
- `cluster.dfy` (module `Cluster`):
  - the arguments, with the Python defaults;
  - `Build`, a declarative statement of the result: a fixed part, then one
    guarded key at a time;
  - `GetMiniCluster` with `NewContainer` and `NewMiniCluster`, which build the
    two dictionaries step by step the way the Python code does (delete
    `resources`, assign nested keys, add guarded keys), and are proved equal
    to `Build`;
  - lemmas stating the properties of every result.

`size`, `namespace`, `name` and the lead broker's `address` and `name` are
emitted as None when not given (`KeySets`, `LeadBrokerBackReference`).

## Model

| member | source | states |
|---|---|---|
| `Cluster.GetMiniCluster` | fluxburst_gke/cluster.py:17-99 | The step-by-step builder returns exactly `Build(a)`: both specs when the two integer conversions succeed, else the first conversion's exception |
| `Cluster.NewContainer` | fluxburst_gke/cluster.py:47-63 | Creating the container, deleting or refilling `resources` one dimension at a time, and adding `flux_user` gives the declarative container spec; the nested assignments never hit a missing key |
| `Cluster.NewMiniCluster` | fluxburst_gke/cluster.py:66-98 | The MiniCluster literal, followed by the guarded `tasks` key and the guarded `flux` keys, gives the declarative MiniCluster spec |
| `Cluster.BuildOutcome` | fluxburst_gke/cluster.py:66-87 | The call succeeds iff `int(lead_port)` and `int(lead_size)` both succeed, and then yields the specs built from the converted values; otherwise it raises the port's error, or the size's error when only the size fails |
| `Cluster.DefaultCallRaises` | fluxburst_gke/cluster.py:30-82 | Called with the command alone, every argument takes its declared default (log level 7, lead port and lead size None), so `int(None)` raises TypeError |
| `Cluster.NonNumericLeadBroker` | fluxburst_gke/cluster.py:80-82 | A port, or a size when the port converts, that holds a character which is not a digit, underscore, sign or space makes the call raise ValueError |
| `Cluster.TextualLeadBroker` | fluxburst_gke/cluster.py:78-83 | Port and size given as decimal text convert to exactly those integers, and the call succeeds |
| `Cluster.LeadBrokerBackReference` | fluxburst_gke/cluster.py:66-85 | Every spec holds `bursting.lead_broker` = {address: lead_host, port, name: lead_jobname, size}; `bursting.clusters` is the one-element list [{size, name}] equal to the top-level size and name |
| `Cluster.ResourcesPresence` | fluxburst_gke/cluster.py:50-53 | The container has a `resources` key iff the CPU limit or the memory limit is not None (0 counts as given) |
| `Cluster.LimitsEqualRequests` | fluxburst_gke/cluster.py:52-59 | `limits` and `requests` are the same map; each of cpu and memory holds its argument iff that argument is not None; the block has only these two maps, holding only these two keys |
| `Cluster.ContainerImageAndCommand` | fluxburst_gke/cluster.py:46-48 | The container always has the command and an image: the argument when truthy, else the default image, so always truthy; it has no keys beyond image, command, resources and flux_user |
| `Cluster.FluxUserKey` | fluxburst_gke/cluster.py:62-63 | `flux_user` is present iff the argument is truthy, and then is {"name": flux_user} |
| `Cluster.OptionalKeys` | fluxburst_gke/cluster.py:89-98 | `tasks` appears iff tasks is not None; `flux.mungeConfigMap` iff the config map is truthy; `flux.broker_config` iff broker_toml is truthy; `flux.wrap` iff wrap is not None. Each holds its argument |
| `Cluster.EmptyValuesUnderGuards` | fluxburst_gke/cluster.py:89-98 | The two guard kinds differ: an empty wrap and a zero tasks are emitted, while an empty broker config, config map or user is dropped |
| `Cluster.FixedFields` | fluxburst_gke/cluster.py:46-75 | `interactive` is False; `connect_timeout` is "5s"; `log_level` and the zeromq/quiet/strict logging switches are copied; `option_flags` is the argument when truthy, else the default, so always truthy |
| `Cluster.KeySets` | fluxburst_gke/cluster.py:66-98 | The top-level keys are exactly size, namespace, name, interactive, logging and flux, plus tasks when given; `mc["flux"]` always has its four fixed keys and at most the three guarded ones besides; `bursting` has exactly lead_broker and clusters |
| `Cluster.OrDefault` | fluxburst_gke/cluster.py:46-47 | `v or d` keeps a truthy argument, and with a non-empty default its result is never falsy, so the emitted flags and image are never empty |
| `PyValue.ToInt` | fluxburst_gke/cluster.py:80-82 | `int(v)` succeeds only for bool, int and str; an int converts to itself |
| `PyValue.ToIntOfShown` | fluxburst_gke/cluster.py:80-82 | `int(str(n)) == n == int(n)`: a port or size given as text or as a number converts alike |
| `PyValue.Assign2` | fluxburst_gke/cluster.py:92-98 | `m[k1][k2] = x` changes only that entry: same top-level keys, other entries unchanged |
| `PyValue.Assign3` | fluxburst_gke/cluster.py:55-59 | `m[k1][k2][k3] = x` changes only that entry: same top-level keys, other entries unchanged |
| `PyInt.ParseInt` | fluxburst_gke/cluster.py:80-82 | `int(s)` on a string fails only with ValueError, and succeeds only when `s` holds a digit |
| `PyInt.ParseShow` | fluxburst_gke/cluster.py:80-82 | `int(str(n)) == n` for every integer, negative ones included |
| `PyInt.ParsePadded` | fluxburst_gke/cluster.py:80-82 | Tabs, line breaks, vertical tabs, form feeds, carriage returns and spaces on either side of the number are ignored |
| `PyInt.ParseRejectsBlank` | fluxburst_gke/cluster.py:80-82 | An empty or all-whitespace string raises ValueError |
| `PyInt.ParseRejectsForeign` | fluxburst_gke/cluster.py:80-82 | A string holding a character that is not a digit, underscore, sign or one of those six whitespace characters raises ValueError (so do the separator controls 0x1c-0x1f) |

## Left out

- `ensure_flux_operator_yaml` (`fluxburst_gke/cluster.py:102-115`): it downloads a file over HTTP and checks that a file exists. Both are I/O.
- `create_munge_configmap` (`fluxburst_gke/cluster.py:118-140`): it reads a file, base64-encodes it with the standard library and calls a Kubernetes client constructor. All three are foreign code.
- `FluxBurstGKE.schedule` and `FluxBurstGKE.run` (`fluxburst_gke/plugin.py:96-122`): `schedule` prints a message and enters an interactive debugger (`IPython.embed()`). `run` logs and returns early when it has no jobs, and otherwise prints a message and enters the same debugger. Neither decides or changes anything the model could state.
- `main` (`fluxburst_gke/plugin.py:147-306`): it sequences cloud, Kubernetes and operator SDK calls. It relies on names that are never defined or imported. Its call to `get_minicluster` also passes a `curve_cert` keyword that the function does not accept.
- `BurstParameters` (`fluxburst_gke/plugin.py:31-87`) is configuration data only.
- `ensure_curve_cert` and `write_minicluster_yaml` are filesystem I/O.
- `fluxburst_gke/__init__.py` is an import shim for a module that is not part of this model.
- PyInt.ParseInt: it accepts ASCII digits and the six ASCII whitespace characters only, not the Unicode decimal digits and spaces that Python converts in a non-ASCII string. It also ignores the interpreter's limit on the number of digits in an integer string (4300 by default). Both are outside what the plugin's port and size settings hold.
- PyValue.ToInt: floats, bytes and objects with their own integer conversion are not modelled. The value type has no floats, so `int(7.9)` is outside the model.
- `PyValue.Value` restricts dictionary keys to strings and does not keep insertion order, so the key order of the serialized spec is not modelled.
- Aliasing is not captured, because the model works on values. In Python, the `size` and `name` objects in `clusters` are the same objects as the top-level ones. The model states only that they are equal.
