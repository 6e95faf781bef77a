/** Token kinds, and the spellings that belong to them.  A character stands for one byte. */
module Tokens {
  import opened Wrappers

  datatype BuiltinKind =
    | I8 | I16 | I32 | I64 | I128 | Isize
    | U8 | U16 | U32 | U64 | U128 | Usize
    | F32 | F64 | Bool | CharType | Str | VoidType

  datatype TokenKind =
    | Eof | Error
    | Plus | Minus | Multiply | Divide | Modulo | Equal | LessThan | GreaterThan
    | EqualEqual | LessThanEqual | GreaterThanEqual | NotEqual
    | PlusAssign | MinusAssign | StarAssign | SlashAssign | PercAssign
    | BitAndAssign | BitOrAssign | BitXorAssign | LShiftAssign | RShiftAssign
    | LogicalAnd | LogicalOr | Bang | BitAnd | BitOr | BitXor | BitNot | LShift | RShift
    | Arrow | FatArrow | PlusPlus | MinusMinus | DotDot | DotDotEq | DotDotDot
    | HashBracket | AtSign | Dollar | Question
    | Colon | ColonColon | Semi | Comma | Dot
    | LParen | RParen | LBrace | RBrace | LBracket | RBracket
    | Identifier | Lifetime
    | IntegerLiteral | FloatLiteral | CharLiteral | StringLiteral | RawStringLiteral
    | ByteLiteral | ByteStringLiteral
    | BuiltinType(builtin: BuiltinKind)
    | KwDec | KwConst | KwFn | KwReturn | KwIf | KwElse | KwWhile | KwFor | KwIn
    | KwBreak | KwContinue | KwImport | KwModule | KwUsing | KwExport | KwExtern
    | KwIntrinsic | KwStruct | KwEnum | KwMacro | KwTrait | KwDyn | KwImpl | KwUnsafe
    | KwAs | KwMove | KwMatch | KwRw | KwTrue | KwFalse | KwType | KwSizeof | KwAlignof
    | KwTypeof | KwCast | KwAwait | KwAsync | KwComptime | KwSelfVal | KwSelfTyp
    | KwLifeFrom | KwRequires | KwLife | KwWhere | KwOutlives | KwPrivate | KwPub
    | KwCrate | KwSuper

  /** The kind of a word: reserved words have their own, all others are identifiers. */
  function WordKind(text: string): TokenKind {
    match text
    case "dec" => KwDec
    case "const" => KwConst
    case "fn" => KwFn
    case "return" => KwReturn
    case "if" => KwIf
    case "else" => KwElse
    case "while" => KwWhile
    case "for" => KwFor
    case "in" => KwIn
    case "break" => KwBreak
    case "continue" => KwContinue
    case "import" => KwImport
    case "module" => KwModule
    case "using" => KwUsing
    case "export" => KwExport
    case "extern" => KwExtern
    case "intrinsic" => KwIntrinsic
    case "struct" => KwStruct
    case "enum" => KwEnum
    case "macro" => KwMacro
    case "trait" => KwTrait
    case "impl" => KwImpl
    case "unsafe" => KwUnsafe
    case "as" => KwAs
    case "move" => KwMove
    case "match" => KwMatch
    case "rw" => KwRw
    case "true" => KwTrue
    case "false" => KwFalse
    case "type" => KwType
    case "sizeof" => KwSizeof
    case "alignof" => KwAlignof
    case "typeof" => KwTypeof
    case "cast" => KwCast
    case "await" => KwAwait
    case "async" => KwAsync
    case "comptime" => KwComptime
    case "dyn" => KwDyn
    case "self" => KwSelfVal
    case "Self" => KwSelfTyp
    case "life_from" => KwLifeFrom
    case "requires" => KwRequires
    case "life" => KwLife
    case "where" => KwWhere
    case "outlives" => KwOutlives
    case "pub" => KwPub
    case "private" => KwPrivate
    case "crate" => KwCrate
    case "super" => KwSuper
    case "i8" => BuiltinType(I8)
    case "i16" => BuiltinType(I16)
    case "i32" => BuiltinType(I32)
    case "i64" => BuiltinType(I64)
    case "i128" => BuiltinType(I128)
    case "isize" => BuiltinType(Isize)
    case "u8" => BuiltinType(U8)
    case "u16" => BuiltinType(U16)
    case "u32" => BuiltinType(U32)
    case "u64" => BuiltinType(U64)
    case "u128" => BuiltinType(U128)
    case "usize" => BuiltinType(Usize)
    case "f32" => BuiltinType(F32)
    case "f64" => BuiltinType(F64)
    case "bool" => BuiltinType(Bool)
    case "char" => BuiltinType(CharType)
    case "str" => BuiltinType(Str)
    case "void" => BuiltinType(VoidType)
    case _ => Identifier
  }

  function OneByteOperator(a: char): Option<TokenKind> {
    match a
    case '+' => Some(Plus)
    case '-' => Some(Minus)
    case '*' => Some(Multiply)
    case '/' => Some(Divide)
    case '%' => Some(Modulo)
    case '=' => Some(Equal)
    case '<' => Some(LessThan)
    case '>' => Some(GreaterThan)
    case '!' => Some(Bang)
    case '&' => Some(BitAnd)
    case '|' => Some(BitOr)
    case '^' => Some(BitXor)
    case '~' => Some(BitNot)
    case '$' => Some(Dollar)
    case '?' => Some(Question)
    case ':' => Some(Colon)
    case '.' => Some(Dot)
    case '@' => Some(AtSign)
    case ';' => Some(Semi)
    case ',' => Some(Comma)
    case '(' => Some(LParen)
    case ')' => Some(RParen)
    case '{' => Some(LBrace)
    case '}' => Some(RBrace)
    case '[' => Some(LBracket)
    case ']' => Some(RBracket)
    case _ => None
  }

  /** A byte's kind from a list of choices. */
  function Choose(b: char, choices: map<char, TokenKind>): Option<TokenKind> {
    if b in choices then Some(choices[b]) else None
  }

  /** The bytes that extend `a` to an operator of two bytes. */
  function SecondBytes(a: char): map<char, TokenKind> {
    match a
    case '+' => map['=' := PlusAssign, '+' := PlusPlus]
    case '-' => map['=' := MinusAssign, '-' := MinusMinus, '>' := Arrow]
    case '*' => map['=' := StarAssign]
    case '/' => map['=' := SlashAssign]
    case '%' => map['=' := PercAssign]
    case '=' => map['=' := EqualEqual, '>' := FatArrow]
    case '<' => map['=' := LessThanEqual, '<' := LShift]
    case '>' => map['=' := GreaterThanEqual, '>' := RShift]
    case '!' => map['=' := NotEqual]
    case '&' => map['=' := BitAndAssign, '&' := LogicalAnd]
    case '|' => map['=' := BitOrAssign, '|' := LogicalOr]
    case '^' => map['=' := BitXorAssign]
    case ':' => map[':' := ColonColon]
    case '.' => map['.' := DotDot]
    case '#' => map['[' := HashBracket]
    case _ => map[]
  }

  function TwoByteOperator(a: char, b: char): Option<TokenKind> {
    Choose(b, SecondBytes(a))
  }

  /** The bytes that extend `a` and `b` to an operator of three bytes. */
  function ThirdBytes(a: char, b: char): map<char, TokenKind> {
    if a != b then map[]
    else
      match a
      case '<' => map['=' := LShiftAssign]
      case '>' => map['=' := RShiftAssign]
      case '.' => map['.' := DotDotDot, '=' := DotDotEq]
      case _ => map[]
  }

  function ThreeByteOperator(a: char, b: char, c: char): Option<TokenKind> {
    Choose(c, ThirdBytes(a, b))
  }

  /** The operators and punctuation marks of the language. */
  function OperatorKind(text: string): Option<TokenKind> {
    if |text| == 1 then OneByteOperator(text[0])
    else if |text| == 2 then TwoByteOperator(text[0], text[1])
    else if |text| == 3 then ThreeByteOperator(text[0], text[1], text[2])
    else None
  }

  predicate IsDigit(c: char) { '0' <= c <= '9' }

  predicate IsLetter(c: char) { 'a' <= c <= 'z' || 'A' <= c <= 'Z' }

  predicate IsWordStart(c: char) { IsLetter(c) || c == '_' }

  predicate IsWord(c: char) { IsWordStart(c) || IsDigit(c) }

  predicate IsNumeral(c: char) { IsDigit(c) || c == '_' }

  predicate IsPound(c: char) { c == '#' }

  predicate InLine(c: char) { c != '\n' }

  predicate IsSpace(c: char) { c == ' ' || c == '\r' || c == '\t' || c == '\n' }
}
